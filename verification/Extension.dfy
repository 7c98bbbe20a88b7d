/**
 The seller's side of forming an agreement: what it checks before it countersigns.

 Hashes and signatures are ideal. A digest is the value it commits to, and a signature is the
 pair of its signer and its message, so verifying one is comparing both.
 */
module Extension {
  import opened Sorting
  import Settlement

  type Text = seq<int>

  /** What a settlement seller is configured with. Addresses are in their lower-case spelling. */
  datatype Seller = Seller(agentId: Text, address: Text, payout: Text, endpoint: Text, extensionUri: Text)

  datatype TermsDocument = TermsDocument(priceAmount: Text, criteriaHash: Text, statsHash: Text, rest: Text)

  /** A Runtime's card: who runs it, and the chain context it declares for this extension. */
  datatype Card = Card(agentId: Text, declaresExtension: bool, chainId: Option<nat>, vault: Option<Text>, rest: Text)

  /** Every signed member of a contract; an absent member is the empty text. */
  datatype Terms = Terms(
    buyerAgent: Text, sellerAgent: Text, payout: Text, asset: Text, amount: Text,
    pinnedDocument: Option<Digest>, deliverable: Text, arbiter: Text,
    extensionUri: Text, endpoint: Text, runtimeAgent: Text, cardHash: Digest, rest: Text)

  datatype Digest = OfTerms(terms: Terms) | OfDocument(document: TermsDocument) | OfCard(card: Card)

  datatype Message =
    | TermsMessage(terms: Digest)
    | AgreementMessage(chainId: nat, dealId: Text, terms: Digest, amount: nat, buyer: Text, seller: Text)

  datatype Signature = Signature(signer: Text, message: Message)

  datatype PartySignature = PartySignature(agentId: Text, sig: Signature, agreementSig: Option<Signature>)

  datatype Contract = Contract(terms: Terms, signatures: seq<PartySignature>)

  function TermsHashOf(c: Contract): Digest { OfTerms(c.terms) }

  datatype Recomputed = Recomputed(priceAmount: Text, criteriaHash: Text, statsHash: Text)

  datatype Validation = Validation(document: TermsDocument, recomputed: Recomputed)

  const USDC: Text := Settlement.Chars("USDC")

  /** Nothing is left after trimming. */
  predicate Empty(s: Text) { forall i :: 0 <= i < |s| ==> Settlement.Blank(s[i]) }

  predicate ValidateTerms(seller: Seller, t: Terms, v: Validation) {
    && t.payout == seller.payout
    && t.sellerAgent == seller.agentId
    && t.pinnedDocument == Some(OfDocument(v.document))
    && t.asset == USDC
    && t.amount == v.recomputed.priceAmount
    && v.document.priceAmount == v.recomputed.priceAmount
    && v.document.criteriaHash == v.recomputed.criteriaHash
    && v.document.statsHash == v.recomputed.statsHash
    && !Empty(t.deliverable)
    && t.extensionUri == seller.extensionUri
    && t.endpoint == seller.endpoint
    && t.arbiter != [] && t.arbiter != t.buyerAgent && t.arbiter != seller.agentId
  }

  /** The chain context of a card the terms pin, or nothing. */
  function ValidateRuntimeCard(card: Card, t: Terms): Option<nat> {
    if OfCard(card) == t.cardHash && card.agentId == t.runtimeAgent && card.declaresExtension && card.vault.Some?
    then card.chainId
    else None
  }

  function AcceptTerms(seller: Seller, dealId: Text, c: Contract, buyer: Text, buyerAgreementSig: Signature,
                       chainId: nat, v: Validation): Option<Contract>
  {
    var amount := Settlement.UsdcBaseUnits(c.terms.amount);
    if |c.signatures| != 1 || !ValidateTerms(seller, c.terms, v) then None
    else
      var proposal := c.signatures[0];
      if proposal.agentId != c.terms.buyerAgent then None
      else if proposal.sig != Signature(buyer, TermsMessage(TermsHashOf(c))) then None
      else if amount.None? then None
      else
        var agreement := AgreementMessage(chainId, dealId, TermsHashOf(c), amount.value, buyer, seller.address);
        if buyerAgreementSig != Signature(buyer, agreement) then None
        else Some(Contract(c.terms, [
          proposal.(agreementSig := Some(buyerAgreementSig)),
          PartySignature(seller.agentId, Signature(seller.address, TermsMessage(TermsHashOf(c))),
                         Some(Signature(seller.address, agreement)))]))
  }

  /** One countersigning the seller performed, with everything it checked. */
  datatype Acceptance = Acceptance(
    contract: Contract, buyer: Text, buyerAgreementSig: Signature, card: Card, validation: Validation)

  predicate Passed(seller: Seller, dealId: Text, a: Acceptance) {
    var chainId := ValidateRuntimeCard(a.card, a.contract.terms);
    chainId.Some? &&
    AcceptTerms(seller, dealId, a.contract, a.buyer, a.buyerAgreementSig, chainId.value, a.validation).Some?
  }

  /** The terms are this seller's, over the quoted slice at the recomputed price, with an arbiter of neither side. */
  ghost predicate OwnTerms(seller: Seller, t: Terms, v: Validation) {
    && t.sellerAgent == seller.agentId && t.payout == seller.payout
    && t.extensionUri == seller.extensionUri && t.endpoint == seller.endpoint
    && t.asset == Settlement.Chars("USDC") && t.amount == v.recomputed.priceAmount
    && t.pinnedDocument == Some(OfDocument(v.document))
    && v.document == v.document.(priceAmount := v.recomputed.priceAmount, criteriaHash := v.recomputed.criteriaHash,
                                 statsHash := v.recomputed.statsHash)
    && (exists i :: 0 <= i < |t.deliverable| && !Settlement.Blank(t.deliverable[i]))
    && t.arbiter !in {[], t.buyerAgent, seller.agentId}
  }

  /** The card is the one the terms pin, of the Runtime they name, and declares the extension, a vault and a chain. */
  predicate OwnCard(card: Card, t: Terms) {
    t.cardHash == OfCard(card) && card.agentId == t.runtimeAgent && card.declaresExtension && card.vault.Some? &&
      card.chainId.Some?
  }

  /** The buyer alone signed, the terms and the Agreement over their price on the card's chain for this deal. */
  ghost predicate BuyerSigned(seller: Seller, dealId: Text, a: Acceptance) {
    var t := a.contract.terms;
    && Settlement.UsdcBaseUnits(t.amount).Some? && a.card.chainId.Some?
    && |a.contract.signatures| == 1 && a.contract.signatures[0].agentId == t.buyerAgent
    && a.contract.signatures[0].sig == Signature(a.buyer, TermsMessage(OfTerms(t)))
    && a.buyerAgreementSig == Signature(a.buyer, AgreementMessage(
         a.card.chainId.value, dealId, OfTerms(t), Settlement.UsdcBaseUnits(t.amount).value, a.buyer, seller.address))
  }

  /** What is countersigned, exactly. */
  lemma PassesIff(seller: Seller, dealId: Text, a: Acceptance)
    ensures Passed(seller, dealId, a) <==>
      OwnTerms(seller, a.contract.terms, a.validation) && OwnCard(a.card, a.contract.terms) &&
        BuyerSigned(seller, dealId, a)
  {
    assert USDC == Settlement.Chars("USDC");
    hide Settlement.UsdcBaseUnits, USDC, Settlement.Chars;
  }

  /** What a countersigned contract guarantees its seller, whoever sent it. */
  lemma AcceptedContract(seller: Seller, dealId: Text, a: Acceptance)
    requires Passed(seller, dealId, a)
    ensures var t := a.contract.terms;
      var chainId := ValidateRuntimeCard(a.card, t).value;
      var accepted := AcceptTerms(seller, dealId, a.contract, a.buyer, a.buyerAgreementSig, chainId,
        a.validation).value;
      && TermsHashOf(accepted) == TermsHashOf(a.contract)
      && t.payout == seller.payout && t.sellerAgent == seller.agentId
      && Settlement.UsdcBaseUnits(t.amount).Some?
      && t.pinnedDocument == Some(OfDocument(a.validation.document))
      && a.validation.document.priceAmount == t.amount
      && OfCard(a.card) == t.cardHash
      && |accepted.signatures| == 2
      && (forall i | 0 <= i < 2 :: accepted.signatures[i].sig.message == TermsMessage(TermsHashOf(accepted)))
      && accepted.signatures[0].sig.signer == a.buyer && accepted.signatures[1].sig.signer == seller.address
      && (forall i | 0 <= i < 2 ::
            accepted.signatures[i].agreementSig.Some? &&
            accepted.signatures[i].agreementSig.value.message == AgreementMessage(
              chainId, dealId, TermsHashOf(accepted), Settlement.UsdcBaseUnits(t.amount).value, a.buyer,
                seller.address))
  {
  }

  /** A countersigned contract is never countersigned again: it carries two signatures, not one. */
  lemma CountersignedOnce(seller: Seller, dealId: Text, c: Contract, buyer: Text, sig: Signature, chainId: nat,
                          v: Validation, buyer': Text, sig': Signature, chainId': nat, v': Validation)
    requires AcceptTerms(seller, dealId, c, buyer, sig, chainId, v).Some?
    ensures AcceptTerms(seller, dealId, AcceptTerms(seller, dealId, c, buyer, sig, chainId, v).value,
                        buyer', sig', chainId', v').None?
  {
  }

  /** For every seller, deal and list price there is a proposal it countersigns, for any buyer address. */
  lemma SomeProposalPasses(seller: Seller, dealId: Text, cents: nat, buyer: Text) returns (a: Acceptance)
    ensures Passed(seller, dealId, a) && a.buyer == buyer && a.contract.terms.amount == Settlement.PriceText(cents)
  {
    var price := Settlement.PriceText(cents);
    var document := TermsDocument(price, [], [], []);
    var card := Card([], true, Some(1), Some([]), []);
    var arbiter, buyerAgent := seller.agentId + [1], seller.agentId + [1, 1];
    var terms := Terms(buyerAgent, seller.agentId, seller.payout, USDC, price, Some(OfDocument(document)), [1], arbiter,
      seller.extensionUri, seller.endpoint, card.agentId, OfCard(card), []);
    var hash := OfTerms(terms);
    Settlement.PriceRoundTrip(cents);
    var agreement := AgreementMessage(1, dealId, hash, Settlement.ListAmountMinor(cents), buyer, seller.address);
    a := Acceptance(Contract(terms, [PartySignature(buyerAgent, Signature(buyer, TermsMessage(hash)), None)]), buyer,
      Signature(buyer, agreement), card, Validation(document, Recomputed(price, [], [])));
    assert !Empty(terms.deliverable) by { assert terms.deliverable[0] == 1; }
    assert |arbiter| != |buyerAgent| && |arbiter| != |seller.agentId|;
    assert ValidateTerms(seller, terms, a.validation);
  }
}
