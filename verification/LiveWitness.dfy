/**
 Runs in which a claim of the live seller fails, for every acceptable proposal: what each condition of the theorems
 shuts out does happen.
 */
module LiveWitness {
  import opened Sorting
  import opened Extension
  import opened Agreement
  import opened Live
  import opened LiveSafety
  import opened LiveSteps
  import opened LiveTheorems
  import Settlement

  /** `w'` is a world some run leads to from `w`. */
  ghost predicate Reaches(w: World, w': World) { exists labels :: Live.Run(w, labels) == w' }

  lemma Stays(w: World)
    ensures Reaches(w, w)
  {
    assert Live.Run(w, []) == w;
  }

  lemma Takes(w: World, w': World, l: Label)
    requires Reaches(w, w')
    ensures Reaches(w, Next(w', l))
  {
    var labels :| Live.Run(w, labels) == w';
    RunTwice(w, labels, [l]);
    assert Live.Run(w', [l]) == Live.Run(Next(w', l), [l][1..]);
    assert Live.Run(w, labels + [l]) == Next(w', l);
  }

  const ANY_CARD := Card([], false, None, None, [])
  const ANY_CONTEXT := FundingContext(false, false, Activation(OfCard(ANY_CARD), [], [], [], 0, []))
  const ANY_VALIDATION := Validation(TermsDocument([], [], [], []), Recomputed([], [], []))

  function Serves(tid: nat): Label { Serve(tid, ANY_CARD, ANY_CONTEXT) }

  function Resumes(tid: nat): Label { Resume(tid, ANY_VALIDATION, true, true, true, 7, [], [], 90, false) }

  function Request(a: Acceptance): CountersignRequest {
    CountersignRequest(0, a.contract, a.buyer, a.buyerAgreementSig)
  }

  function ReadyToAccept(a: Acceptance, st: Status): Thread { CsCardReply(Request(a), st, a.card) }

  /** A countersign request that has its status and its card: the continuation may run now or later. */
  lemma Countersigning(w0: World, w: World, a: Acceptance) returns (w': World)
    requires Reaches(w0, w) && TermsHashOf(a.contract) == w.terms && !Past(w.rt.state)
    ensures Reaches(w0, w')
    ensures w' == w.(threads := w.threads[w.nextTid := ReadyToAccept(a, Read(w))], nextTid := w.nextTid + 1,
                     given := w'.given)
  {
    hide CsAccept, NoteDone, FundSign, RejectionSign, DeliverCheck, DeliverMint, DeliverCommand;
    hide Reaches, Step;
    var tid := w.nextTid;
    var w1 := Next(w, StartCountersign(Request(a)));
    Takes(w0, w, StartCountersign(Request(a)));
    var w2 := Next(w1, Serves(tid));
    Takes(w0, w1, Serves(tid));
    assert w2.threads[tid] == CsStatusReply(Request(a), Read(w));
    var w3 := Next(w2, Resumes(tid));
    Takes(w0, w2, Resumes(tid));
    assert w3.threads[tid] == CsCard(Request(a), Read(w));
    w' := Next(w3, Serve(tid, a.card, ANY_CONTEXT));
    Takes(w0, w3, Serve(tid, a.card, ANY_CONTEXT));
    assert w'.threads == w.threads[tid := ReadyToAccept(a, Read(w))];
  }

  function Accepting(
      tid: nat, a: Acceptance): Label { Resume(tid, a.validation, true, true, true, 0, [], [], 0, false) }

  /** The countersigned contract of an acceptance that passes. */
  function Accepted(seller: Seller, dealId: Text, a: Acceptance): Contract
    requires Passed(seller, dealId, a)
  {
    AcceptTerms(seller, dealId, a.contract, a.buyer, a.buyerAgreementSig,
                ValidateRuntimeCard(a.card, a.contract.terms).value, a.validation).value
  }

  predicate ThisDeal(w: World, a: Acceptance) {
    Passed(w.seller, w.dealId, a) && TermsHashOf(a.contract) == w.terms
  }

  /** A record countersigned for `a`, holding no artifact yet. */
  predicate FreshlyAccepted(r: Record, a: Acceptance) {
    && r.negotiation == 0 && r.buyer == a.buyer && r.state == ACCEPTED_LOCAL
    && r.token.None? && !r.revoked && r.deliveryHash.None?
  }

  lemma NextAccepts(w: World, tid: nat, a: Acceptance, st: Status)
    requires tid in w.threads && w.threads[tid] == ReadyToAccept(a, st)
    ensures Next(w, Accepting(tid, a)) == CsAccept(w, tid, Request(a), st, a.card, a.validation)
  {
    hide CsAccept;
  }

  /** The world after registering and countersigning on no record, before the acceptance is submitted. */
  function CountersignedWorld(w: World, tid: nat, a: Acceptance, st: Status): World
    requires ThisDeal(w, a) && w.rec.None?
  {
    var accepted := Accepted(w.seller, w.dealId, a);
    var chainId := ValidateRuntimeCard(a.card, a.contract.terms).value;
    Sign(Countersign(Registered(w, tid, Request(a), st), accepted, a),
      SignedAgreement(Request(a), chainId, w.nextOid, st.revision))
  }

  lemma AcceptsAnew(w: World, tid: nat, a: Acceptance, st: Status)
    requires ThisDeal(w, a) && w.rec.None?
    ensures var w2 := CountersignedWorld(w, tid, a, st);
      CsAccept(w, tid, Request(a), st, a.card, a.validation) == if st.state == COMMITTED then w2 else Put(w2, tid,
        CsSubmit)
    ensures TermsHashOf(Accepted(w.seller, w.dealId, a)) == w.terms
  {
    AcceptedContract(w.seller, w.dealId, a);
    hide AcceptTerms, ValidateRuntimeCard, Put, Sign, Countersign;
    assert Registered(w, tid, Request(a), st).rec.value.buyer == a.buyer;
  }

  lemma WhatCountersigned(w: World, tid: nat, a: Acceptance, st: Status)
    requires ThisDeal(w, a) && w.rec.None?
    ensures var w2 := CountersignedWorld(w, tid, a, st);
      && w2.rec.Some? && FreshlyAccepted(w2.rec.value, a) && w2.rec.value.runtimeState == Some(st.state)
      && w2.rec.value.oid == w.nextOid
      && w2.dealTerms == Some(TermsHashOf(Accepted(w.seller, w.dealId, a))) && w2.passed == w.passed + {a}
      && w2 == w.(rec := w2.rec, dealTerms := w2.dealTerms, threads := w.threads - {tid}, nextOid := w.nextOid + 1,
                  passed := w2.passed, signed := w2.signed, stale := w.stale || Past(w.rt.state))
  {
    hide Accepted, TermsHashOf, ValidateRuntimeCard, Past, Passed;
  }

  /** The countersign continuation runs on no record: a new one is registered and countersigned. */
  lemma AcceptingAnew(w: World, tid: nat, a: Acceptance, st: Status)
    requires tid in w.threads && w.threads[tid] == ReadyToAccept(a, st) && ThisDeal(w, a) && w.rec.None?
    ensures var w' := Next(w, Accepting(tid, a));
      && w'.rec.Some? && FreshlyAccepted(w'.rec.value, a) && w'.rec.value.runtimeState == Some(st.state)
      && w'.rec.value.oid == w.nextOid && w'.dealTerms == Some(w.terms)
      && (forall x :: x in w'.passed ==> x in w.passed || x.buyer == a.buyer)
      && w' == w.(rec := w'.rec, dealTerms := w'.dealTerms, threads := w'.threads, nextOid := w.nextOid + 1,
                  passed := w'.passed, signed := w'.signed, stale := w.stale || Past(w.rt.state))
      && w'.threads == (if st.state == COMMITTED then w.threads - {tid} else w.threads[tid := CsSubmit])
  {
    NextAccepts(w, tid, a, st);
    AcceptsAnew(w, tid, a, st);
    WhatCountersigned(w, tid, a, st);
    hide Next, CsAccept, CountersignedWorld, Passed, FreshlyAccepted, TermsHashOf, Accepted;
    assert w.threads[tid := CsSubmit] == (w.threads - {tid})[tid := CsSubmit];
  }

  /** A deal just committed; `observed` is the Runtime state the record last saw. */
  predicate Formed(w: World, a: Acceptance, observed: State) {
    && (forall x :: x in w.passed ==> x.buyer == a.buyer)
    && ThisDeal(w, a) && w.rec.Some? && FreshlyAccepted(w.rec.value, a)
    && w.rec.value.runtimeState == Some(observed)
    && w.dealTerms == Some(w.terms) && !w.delivering && !w.watching
    && w.rt.state == COMMITTED && w.rt.history == map[] && Deliveries(w.rt.chain) == []
    && w.outcome == Outcome(false, false) && !w.stale
  }

  lemma GenesisAccepts()
    ensures Genesis<Payload>().state == PROPOSED
    ensures var rt := Step(Genesis<Payload>(), Countersigned).0;
      rt.state == COMMITTED && rt.history == map[] && Deliveries(rt.chain) == []
  {
    var rt := Step(Genesis<Payload>(), Countersigned).0;
    assert rt.chain[..0] == [];
  }

  /** The acceptance is served. */
  lemma AcceptanceServed(w0: World, w2: World, tid: nat) returns (w: World)
    requires Reaches(w0, w2) && tid in w2.threads && w2.threads[tid] == CsSubmit && w2.rt == Genesis()
    ensures Reaches(w0, w)
    ensures w == w2.(rt := w.rt, threads := w2.threads[tid := ObserveReply(Read(w))])
    ensures w.rt.state == COMMITTED && w.rt.history == map[] && Deliveries(w.rt.chain) == []
  {
    hide Reaches, Step;
    GenesisAccepts();
    Takes(w0, w2, Serves(tid));
    w := Next(w2, Serves(tid));
  }

  lemma AcceptanceAnswered(w: World, lost: bool)
    requires 0 in w.threads && w.threads[0] == ObserveReply(Read(w)) && w.rec.Some?
    ensures Next(w, if lost then Fail(0, false, false) else Resumes(0)) ==
      if lost then End(w, 0) else Observed(End(w, 0), Read(w))
  {
    hide Step, Read;
  }

  /** The acceptance is served and its reply arrives, or is lost. */
  lemma Commits(w0: World, w2: World, a: Acceptance, lost: bool) returns (w: World)
    requires Reaches(w0, w2) && ThisDeal(w2, a) && 0 in w2.threads && w2.threads[0] == CsSubmit
    requires w2.rec.Some? && FreshlyAccepted(w2.rec.value, a) && w2.rec.value.runtimeState == Some(PROPOSED)
    requires w2.dealTerms == Some(w2.terms) && !w2.delivering && !w2.watching
    requires forall x :: x in w2.passed ==> x.buyer == a.buyer
    requires w2.rt == Genesis() && w2.outcome == Outcome(false, false) && !w2.stale
    ensures Reaches(w0, w) && Formed(w, a, if lost then PROPOSED else COMMITTED)
    ensures w.threads == w2.threads - {0} && w.nextTid == w2.nextTid
  {
    hide Passed, Reaches, Step, Next, Deliveries;
    var w3 := AcceptanceServed(w0, w2, 0);
    var l := if lost then Fail(0, false, false) else Resumes(0);
    w := Next(w3, l);
    Takes(w0, w3, l);
    AcceptanceAnswered(w3, lost);
    assert w.threads == w2.threads - {0};
  }

  /** The proposal is countersigned and commits. */
  lemma Forms(seller: Seller, dealId: Text, a: Acceptance, lost: bool) returns (w: World)
    requires Passed(seller, dealId, a)
    ensures Reaches(Start(seller, dealId, a.contract.terms), w)
    ensures Formed(w, a, if lost then PROPOSED else COMMITTED) && w.threads == map[]
  {
    hide Passed;
    var w0 := Start(seller, dealId, a.contract.terms);
    Stays(w0);
    var w1 := Countersigning(w0, w0, a);
    AcceptingAnew(w1, 0, a, Read(w0));
    var w2 := Next(w1, Accepting(0, a));
    Takes(w0, w1, Accepting(0, a));
    assert w2.threads == map[0 := CsSubmit];
    w := Commits(w0, w2, a, lost);
  }

  // ------------------------------------------------------------------ an unverified buyer

  /** Another party's request for the same deal: the same contract, a different buyer, no valid signature. */
  function Imposter(a: Acceptance, buyer: Text): Acceptance {
    a.(buyer := buyer, buyerAgreementSig := Signature([], TermsMessage(TermsHashOf(a.contract))))
  }

  /** It registers a record and is then refused; the record stays. */
  lemma ImposterRegisters(w: World, tid: nat, a: Acceptance, buyer: Text, st: Status)
    requires tid in w.threads && w.threads[tid] == ReadyToAccept(Imposter(a, buyer), st) && ThisDeal(w, a) &&
      w.rec.None?
    ensures Next(w, Accepting(tid, Imposter(a, buyer))) == Registered(w, tid, Request(Imposter(a, buyer)), st)
  {
    var i := Imposter(a, buyer);
    assert AcceptTerms(w.seller, w.dealId, i.contract, buyer, i.buyerAgreementSig,
                       ValidateRuntimeCard(i.card, i.contract.terms).value, i.validation).None?;
    hide AcceptTerms, ValidateRuntimeCard;
    assert Next(w, Accepting(tid, i)) == CsAccept(w, tid, Request(i), st, i.card, i.validation);
  }

  /**
   A co-signed Activation can name a buyer nobody verified: the acceptance commits and its reply is lost,
   the record is reclaimed, a request for another buyer registers a new record and fails to countersign,
   and the Activation the Runtime then serves is checked against that record.
   */
  lemma UnverifiedBuyerCoSigned(seller: Seller, dealId: Text, a: Acceptance, buyer: Text)
    requires Passed(seller, dealId, a) && buyer != a.buyer
    ensures exists labels, x, r :: var w := Live.Run(Start(seller, dealId, a.contract.terms), labels);
      && SignedActivation(x, r) in w.signed && x.activation.buyerAgent == buyer && r.state == PROPOSED_LOCAL
      && !VerifiedBuyer(w, buyer)
  {
    AcceptedContract(seller, dealId, a);
    hide Passed;
    var w0 := Start(seller, dealId, a.contract.terms);
    var w1 := Forms(seller, dealId, a, true);
    StartInv(seller, dealId, a.contract.terms);
    Fixed'(w0, w1);
    Takes(w0, w1, Prune);
    var w2 := Next(w1, Prune);
    assert w2 == w1.(rec := None);
    var tid := w2.nextTid;
    var w3 := Countersigning(w0, w2, Imposter(a, buyer));
    ImposterRegisters(w3, tid, a, buyer, Read(w2));
    Takes(w0, w3, Accepting(tid, Imposter(a, buyer)));
    var w4 := Next(w3, Accepting(tid, Imposter(a, buyer)));
    assert w4.threads == map[] && w4.rec.value.buyer == buyer && w4.rec.value.state == PROPOSED_LOCAL;
    CoSigns(w0, w4, a.contract, buyer);
  }

  lemma Fixed'(w0: World, w: World)
    requires Reaches(w0, w) && Inv(w0)
    ensures Onward(w0, w)
  {
    var labels :| Live.Run(w0, labels) == w;
    Fixed(w0, labels);
  }

  lemma CoSigns(w0: World, w: World, c: Contract, buyer: Text)
    requires Reaches(w0, w) && w.threads == map[] && w.dealTerms == Some(w.terms) && w.rec.Some?
    requires w.rec.value.contract == c && w.rec.value.buyer == buyer && w.rec.value.state == PROPOSED_LOCAL
    requires Settlement.UsdcBaseUnits(c.terms.amount).Some? && !VerifiedBuyer(w, buyer)
    ensures exists labels, x, r :: var w' := Live.Run(w0, labels);
      && SignedActivation(x, r) in w'.signed && x.activation.buyerAgent == buyer && r.state == PROPOSED_LOCAL
      && !VerifiedBuyer(w', buyer)
  {
    var tid := w.nextTid;
    var amount := Settlement.UsdcBaseUnits(c.terms.amount);
    hide Settlement.UsdcBaseUnits;
    var x := Activation(w.terms, buyer, w.seller.address, c.terms.payout, amount.value, []);
    var context := FundingContext(true, true, x);
    Takes(w0, w, StartFunding);
    var w5 := Next(w, StartFunding);
    assert w5.threads == map[tid := FundRead(c, w.terms)];
    var serve := Serve(tid, ANY_CARD, context);
    Takes(w0, w5, serve);
    var w6 := Next(w5, serve);
    assert w6.threads == map[tid := FundReply(c, w.terms, context)];
    Takes(w0, w6, Resumes(tid));
    var w7 := Next(w6, Resumes(tid));
    assert w7 == Put(Sign(w6, SignedActivation(context, w.rec.value)), tid, FundSubmit);
    assert SignedActivation(context, w.rec.value) in w7.signed;
    var labels :| Live.Run(w0, labels) == w7;
  }

  // ------------------------------------------------------------------ a deal on its way to delivery

  /** A notification of a funded deal starts the delivery task. */
  lemma Notified(w0: World, w: World) returns (w': World, tid: nat)
    requires Reaches(w0, w) && w.rt.state == FULFILLING && forall i :: i in w.threads ==> i < w.nextTid
    requires w.rec.Some? && w.dealTerms == Some(w.terms) && !w.delivering
    ensures Reaches(w0, w')
    ensures tid == w.nextTid + 1
    ensures w' == w.(rec := Some(w.rec.value.(runtimeState := Some(FULFILLING))), delivering := true,
                     threads := w.threads[tid := DeliverStatus(w.terms)], nextTid := tid + 1, given := w'.given)
  {
    hide CsCheck, CsAccept, FundSign, RejectionSign, RefreshDone, WatchDone, DeliverCheck, DeliverMint,
      DeliverCommand, DeliverProbed;
    hide Step, Reaches;
    var note := w.nextTid;
    Takes(w0, w, StartNotification(None));
    var w2 := Next(w, StartNotification(None));
    Takes(w0, w2, Serves(note));
    var w3 := Next(w2, Serves(note));
    assert w3.threads[note] == NoteStatusReply(Read(w));
    Takes(w0, w3, Resumes(note));
    w' := Next(w3, Resumes(note));
    tid := note + 1;
    assert w'.threads == w.threads[tid := DeliverStatus(w.terms)];
  }

  /** The delivery task reads FULFILLING and goes on to generate. */
  lemma Checked(w0: World, w: World, tid: nat) returns (w': World)
    requires Reaches(w0, w) && w.rt.state == FULFILLING && tid in w.threads && w.threads[tid] == DeliverStatus(w.terms)
    requires w.rec.Some? && w.rec.value.state != PROPOSED_LOCAL && w.rec.value.runtimeState == Some(FULFILLING)
    ensures Reaches(w0, w')
    ensures w' == Put(w.(given := w'.given), tid,
      DeliverGenerating(w.rec.value.oid, w.rec.value.contract, Read(w)))
  {
    hide Step, Reaches;
    Takes(w0, w, Serves(tid));
    var w1 := Next(w, Serves(tid));
    assert w1 == Put(w, tid, DeliverStatusReply(w.terms, Read(w)));
    Takes(w0, w1, Resumes(tid));
    w' := Next(w1, Resumes(tid));
    CheckedFunded(w1, tid, Read(w));
    assert w'.threads == w.threads[tid := w'.threads[tid]];
  }

  lemma CheckedFunded(w: World, tid: nat, st: Status)
    requires tid in w.threads && w.threads[tid] == DeliverStatusReply(w.terms, st) && st.state == FULFILLING
    requires w.rec.Some? && w.rec.value.state != PROPOSED_LOCAL && w.rec.value.runtimeState == Some(FULFILLING)
    ensures Next(w, Resumes(tid)) == Put(w.(given := w.given.(anchors := true)), tid,
      DeliverGenerating(w.rec.value.oid, w.rec.value.contract, st))
  {
    hide Step, Read;
    assert Next(w, Resumes(tid)) == DeliverCheck(w, tid, w.terms, st, true, true);
  }

  /** Funding is confirmed: nothing but the Runtime changes. */
  lemma Funds(w0: World, w: World) returns (w': World)
    requires Reaches(w0, w) && w.rt.state == COMMITTED && Deliveries(w.rt.chain) == []
    ensures Reaches(w0, w')
    ensures w' == w.(rt := w'.rt) && w'.rt.state == FULFILLING && Deliveries(w'.rt.chain) == []
    ensures w'.rt.history == w.rt.history && w'.rt.revision == w.rt.revision + 1
  {
    hide Reaches, Step, Deliveries;
    FundStep(w.rt);
    var fund: Label := RuntimeMoves(Observe(FundConfirmed));
    Takes(w0, w, fund);
    w' := Next(w, fund);
  }

  lemma FundStep(rt: Machine<Payload>)
    requires rt.state == COMMITTED && Deliveries(rt.chain) == []
    ensures var rt' := Step(rt, Observe(FundConfirmed)).0;
      && rt'.state == FULFILLING && Deliveries(rt'.chain) == []
      && rt'.history == rt.history && rt'.revision == rt.revision + 1
  {
    var rt' := Step(rt, Observe(FundConfirmed)).0;
    assert rt'.chain[..|rt'.chain| - 1] == rt.chain;
  }

  // ------------------------------------------------------------------ a committed delivery that is lost

  /** An appeal reads the agreement and waits for its answer. */
  lemma AppealReads(w0: World, w: World) returns (w': World)
    requires Reaches(w0, w) && w.dealTerms == Some(w.terms) && w.nextTid !in w.threads
    ensures Reaches(w0, w')
    ensures w' == w.(threads := w.threads[w.nextTid := RejectionReply(Appealed, w.terms, Read(w))],
      nextTid := w.nextTid + 1, given := w'.given)
  {
    hide Reaches, Step;
    var tid := w.nextTid;
    Takes(w0, w, StartRejection(Appealed));
    var w1 := Next(w, StartRejection(Appealed));
    assert w1.threads == w.threads[tid := RejectionStatus(Appealed, w.terms)];
    Takes(w0, w1, Serves(tid));
    w' := Next(w1, Serves(tid));
    assert w' == Put(w1, tid, RejectionReply(Appealed, w.terms, Read(w)));
  }

  /** Formed as before, with an appeal in flight that read the agreement while it was still proposed. */
  lemma FormsWithAppeal(seller: Seller, dealId: Text, a: Acceptance) returns (w: World, st: Status)
    requires Passed(seller, dealId, a)
    ensures Reaches(Start(seller, dealId, a.contract.terms), w)
    ensures Formed(w, a, COMMITTED) && st.state == PROPOSED
    ensures w.threads == map[1 := RejectionReply(Appealed, w.terms, st)] && w.nextTid == 2
  {
    hide Passed, Reaches, Next;
    var w0 := Start(seller, dealId, a.contract.terms);
    Stays(w0);
    var w1 := Countersigning(w0, w0, a);
    AcceptingAnew(w1, 0, a, Read(w0));
    var w2 := Next(w1, Accepting(0, a));
    Takes(w0, w1, Accepting(0, a));
    st := Read(w2);
    var w3 := AppealReads(w0, w2);
    assert w3.threads == map[0 := CsSubmit, 1 := RejectionReply(Appealed, w3.terms, st)];
    w := Commits(w0, w3, a, false);
  }

  /** Generation finishes and the watcher starts. */
  lemma Mints(w0: World, w: World, tid: nat, st: Status) returns (w': World)
    requires Reaches(w0, w) && tid in w.threads && w.rec.Some? && !w.watching && w.nextTid !in w.threads
    requires w.threads[tid] == DeliverGenerating(w.rec.value.oid, w.rec.value.contract, st)
    ensures Reaches(w0, w') && w'.rec.Some? && w'.rec.value.state == DELIVERED_LOCAL && w'.rec.value.deliveryHash.Some?
    ensures w'.rec.value.negotiation == w.rec.value.negotiation && w'.rec.value.buyer == w.rec.value.buyer
    ensures w'.rec.value.token == Some(7) && w'.rec.value.csv == Some([]) && w'.rec.value.revoked == w.rec.value.revoked
    ensures w'.rec.value.runtimeState == w.rec.value.runtimeState
    ensures w' == w.(rec := w'.rec, signed := w'.signed, watching := true, nextTid := w.nextTid + 1,
                     threads := w.threads[w.nextTid := WatchStatus][tid := DeliverEvidence(st)])
  {
    hide Reaches, Step;
    hide CsCheck, CsAccept, NoteDone, FundSign, RejectionSign, RefreshDone, WatchDone, DeliverCheck,
      DeliverCommand, DeliverProbed;
    Takes(w0, w, Resumes(tid));
    var w1 := Next(w, Resumes(tid));
    assert w1.threads == w.threads[tid := DeliverMinted(st)];
    Takes(w0, w1, Resumes(tid));
    w' := Next(w1, Resumes(tid));
    assert w'.threads == w.threads[w.nextTid := WatchStatus][tid := DeliverEvidence(st)];
  }

  /** The evidence is registered and the delivered command is signed and sent. */
  lemma Commands(w0: World, w: World, tid: nat, st: Status) returns (w': World, command: Command<Payload>)
    requires Reaches(w0, w) && tid in w.threads && w.threads[tid] == DeliverEvidence(st)
    requires w.rec.Some? && w.rec.value.deliveryHash.Some?
    ensures Reaches(w0, w') && w' == w.(signed := w'.signed, threads := w.threads[tid := DeliverSubmit(command)])
    ensures command.kind == Delivered && command.actor == Actor.Seller && command.expectedRevision == st.revision
  {
    hide Reaches, Step;
    hide CsCheck, CsAccept, NoteDone, FundSign, RejectionSign, RefreshDone, WatchDone, DeliverCheck,
      DeliverMint, DeliverProbed;
    Takes(w0, w, Serves(tid));
    var w1 := Next(w, Serves(tid));
    assert w1 == Put(w, tid, DeliverRegistered(st));
    Takes(w0, w1, Resumes(tid));
    w' := Next(w1, Resumes(tid));
    command := w'.threads[tid].command;
    assert w'.threads == w.threads[tid := DeliverSubmit(command)];
  }

  /** The delivered command commits. */
  lemma Delivers(w0: World, w: World, tid: nat, command: Command<Payload>) returns (w': World)
    requires Reaches(w0, w) && tid in w.threads && w.threads[tid] == DeliverSubmit(command)
    requires command.kind == Delivered && command.actor == Actor.Seller && command.expectedRevision == w.rt.revision
    requires w.rt.state == FULFILLING && w.rt.history == map[] && Deliveries(w.rt.chain) == []
    ensures Reaches(w0, w') && Committed(w') != []
    ensures w' == w.(rt := w'.rt, threads := w.threads[tid := DeliverObserve(Read(w'))])
    ensures w'.rt.state == DELIVERED && w'.rt.history.Keys == {command.id}
  {
    hide Reaches, Step, Deliveries;
    DeliverStep(w.rt, command);
    Takes(w0, w, Serves(tid));
    w' := Next(w, Serves(tid));
  }

  lemma DeliverStep(rt: Machine<Payload>, command: Command<Payload>)
    requires command.kind == Delivered && command.actor == Actor.Seller && command.expectedRevision == rt.revision
    requires rt.state == FULFILLING && rt.history == map[] && Deliveries(rt.chain) == []
    ensures var (rt', reply) := Step(rt, Submit(command));
      && rt'.state == DELIVERED && rt'.history.Keys == {command.id} && reply.Applied? && Deliveries(rt'.chain) != []
  {
    var rt' := Step(rt, Submit(command)).0;
    assert rt'.chain[..|rt'.chain| - 1] == rt.chain;
  }

  /** The continuation runs on a delivered record of the same buyer: it is countersigned anew. */
  lemma AcceptingAgain(w: World, tid: nat, a: Acceptance, st: Status)
    requires tid in w.threads && w.threads[tid] == ReadyToAccept(a, st) && st.state == COMMITTED && ThisDeal(w, a)
    requires w.rec.Some? && w.rec.value.negotiation == 0 && w.rec.value.buyer == a.buyer
    ensures var w' := Next(w, Accepting(tid, a));
      && w'.rec.Some? && w'.rec.value.state == ACCEPTED_LOCAL
      && w'.rt == w.rt && w'.threads == w.threads - {tid} && w'.outcome == w.outcome && w'.terms == w.terms
      && w'.nextTid == w.nextTid && w'.watching == w.watching && w'.seller == w.seller && w'.dealId == w.dealId
  {
    AcceptedContract(w.seller, w.dealId, a);
    hide AcceptTerms, ValidateRuntimeCard;
    assert Next(w, Accepting(tid, a)) == CsAccept(w, tid, Request(a), st, a.card, a.validation);
  }

  /** The appeal's old answer is observed and the record is reclaimed. */
  lemma Reclaims(w0: World, w: World, tid: nat, st: Status) returns (w': World)
    requires Reaches(w0, w) && tid in w.threads && w.threads[tid] == RejectionReply(Appealed, w.terms, st)
    requires st.state == PROPOSED && w.rec.Some? && w.rec.value.state == ACCEPTED_LOCAL
    ensures Reaches(w0, w') && w'.rec.None? && w'.rt == w.rt && w'.outcome == w.outcome
  {
    hide Reaches;
    Takes(w0, w, Resumes(tid));
    var w1 := Next(w, Resumes(tid));
    Takes(w0, w1, Prune);
    w' := Next(w1, Prune);
  }

  /**
   A committed delivery can stop being served although nobody was refunded: a countersign continuation
   that read COMMITTED resets the delivered record to accepted, an appeal's even older answer reports
   PROPOSED, and the record is reclaimed as one that never left formation.
   */
  lemma CommittedDeliveryLost(seller: Seller, dealId: Text, a: Acceptance)
    requires Passed(seller, dealId, a)
    ensures exists labels :: var w := Live.Run(Start(seller, dealId, a.contract.terms), labels);
      && Committed(w) != [] && !w.outcome.refunded && w.stale
      && forall file, token :: ArtifactFor(w, file, token) == Nothing
  {
    hide Passed, Reaches, Next;
    var w0 := Start(seller, dealId, a.contract.terms);
    var w7, early, late := DeliversUnderAppeal(seller, dealId, a);
    AcceptingAgain(w7, 2, a, late);
    Takes(w0, w7, Accepting(2, a));
    var w8 := Next(w7, Accepting(2, a));
    assert w8.threads[1] == RejectionReply(Appealed, w8.terms, early);
    var w9 := Reclaims(w0, w8, 1, early);
    assert Committed(w9) == Committed(w7);
    LostIsStale(w0, w9, seller, dealId, a.contract.terms);
  }

  /** The threads of the two answers still in flight. */
  predicate InFlight(w: World, a: Acceptance, early: Status, late: Status) {
    && early.state == PROPOSED && late.state == COMMITTED
    && 1 in w.threads && w.threads[1] == RejectionReply(Appealed, w.terms, early)
    && 2 in w.threads && w.threads[2] == ReadyToAccept(a, late)
  }

  /** A delivery is being generated while an early appeal and a late countersign are still in flight. */
  lemma GeneratesUnderAppeal(seller: Seller, dealId: Text, a: Acceptance)
    returns (w: World, early: Status, late: Status, tid: nat, st: Status)
    requires Passed(seller, dealId, a)
    ensures Reaches(Start(seller, dealId, a.contract.terms), w) && ThisDeal(w, a)
    ensures InFlight(w, a, early, late) && !w.outcome.refunded && !w.watching && tid == 4 && w.nextTid == 5
    ensures w.threads.Keys == {1, 2, 4}
    ensures w.rt.state == FULFILLING && w.rt.history == map[] && st.revision == w.rt.revision && Committed(w) == []
    ensures w.rec.Some? && w.rec.value.negotiation == 0 && w.rec.value.buyer == a.buyer
    ensures w.threads[4] == DeliverGenerating(w.rec.value.oid, w.rec.value.contract, st)
  {
    hide Passed, Reaches, Next;
    var w0 := Start(seller, dealId, a.contract.terms);
    var w1;
    w1, early := FormsWithAppeal(seller, dealId, a);
    late := Read(w1);
    var w2 := Countersigning(w0, w1, a);
    var w3 := Funds(w0, w2);
    var w4;
    w4, tid := Notified(w0, w3);
    st := Read(w4);
    w := Checked(w0, w4, tid);
  }

  /** It commits. */
  lemma DeliversUnderAppeal(seller: Seller, dealId: Text, a: Acceptance) returns (w: World, early: Status, late: Status)
    requires Passed(seller, dealId, a)
    ensures Reaches(Start(seller, dealId, a.contract.terms), w) && ThisDeal(w, a)
    ensures Committed(w) != [] && !w.outcome.refunded && InFlight(w, a, early, late)
    ensures w.rec.Some? && w.rec.value.negotiation == 0 && w.rec.value.buyer == a.buyer
  {
    hide Passed, Reaches, Next, Deliveries;
    var w0 := Start(seller, dealId, a.contract.terms);
    var w5, tid, st;
    w5, early, late, tid, st := GeneratesUnderAppeal(seller, dealId, a);
    var w6 := Mints(w0, w5, tid, st);
    var w7, command := Commands(w0, w6, tid, st);
    assert InFlight(w7, a, early, late);
    w := Delivers(w0, w7, tid, command);
  }

  lemma LostIsStale(w0: World, w: World, seller: Seller, dealId: Text, terms: Terms)
    requires w0 == Start(seller, dealId, terms) && Reaches(w0, w)
    requires Committed(w) != [] && !w.outcome.refunded && w.rec.None?
    ensures exists labels :: var v := Live.Run(w0, labels);
      && Committed(v) != [] && !v.outcome.refunded && v.stale
      && forall file, token :: ArtifactFor(v, file, token) == Nothing
  {
    var labels :| Live.Run(w0, labels) == w;
    CommittedIsServed(seller, dealId, terms, labels);
  }

  // ------------------------------------------------------------------ a refund observed before it is applied

  /** A funded deal whose delivery has minted its token: the watcher has started, the evidence is being sent. */
  lemma Minted(seller: Seller, dealId: Text, a: Acceptance) returns (w: World, tid: nat, st: Status)
    requires Passed(seller, dealId, a)
    ensures Reaches(Start(seller, dealId, a.contract.terms), w) && tid in w.threads
    ensures w.threads[tid] == DeliverEvidence(st)
    ensures w.rt.state == FULFILLING && w.rt.history == map[] && st.revision == w.rt.revision
    ensures Deliveries(w.rt.chain) == [] && !w.stale
    ensures w.rec.Some? && w.rec.value.token == Some(7) && w.rec.value.csv == Some([]) && !w.rec.value.revoked
    ensures w.rec.value.deliveryHash.Some?
  {
    hide Passed, Reaches, Next, Deliveries;
    var w0 := Start(seller, dealId, a.contract.terms);
    var w1 := Forms(seller, dealId, a, false);
    var w2 := Funds(w0, w1);
    var w3;
    w3, tid := Notified(w0, w2);
    st := Read(w3);
    var w4 := Checked(w0, w3, tid);
    w := Mints(w0, w4, tid, st);
  }

  /** The delivery commits and the delivery task does not learn of it. */
  lemma DeliversSilently(seller: Seller, dealId: Text, a: Acceptance) returns (w: World, tid: nat, id: nat)
    requires Passed(seller, dealId, a)
    ensures Reaches(Start(seller, dealId, a.contract.terms), w) && tid in w.threads && w.threads[tid] == DeliverProbe
    ensures w.rt.state == DELIVERED && id !in w.rt.history && !w.stale
    ensures w.rec.Some? && w.rec.value.token == Some(7) && w.rec.value.csv == Some([]) && !w.rec.value.revoked
  {
    hide Passed, Reaches, Next, Deliveries;
    var w0 := Start(seller, dealId, a.contract.terms);
    var w1, st;
    w1, tid, st := Minted(seller, dealId, a);
    var w2, command := Commands(w0, w1, tid, st);
    var w3 := Delivers(w0, w2, tid, command);
    w := Probes(w0, w3, tid);
    id := command.id + 1;
  }

  /** The reply is lost and the delivery asks what became of the deal. */
  lemma Probes(w0: World, w: World, tid: nat) returns (w': World)
    requires Reaches(w0, w) && tid in w.threads && w.threads[tid].DeliverObserve?
    ensures Reaches(w0, w') && w' == Put(w, tid, DeliverProbe)
  {
    hide Step, Reaches;
    Takes(w0, w, Fail(tid, false, false));
    w' := Next(w, Fail(tid, false, false));
  }

  /** The buyer rejects the delivery and no answer comes in time: the escrow goes back. */
  lemma BuyerRefunded(w0: World, w: World, id: nat) returns (w': World)
    requires Reaches(w0, w) && w.rt.state == DELIVERED && id !in w.rt.history
    ensures Reaches(w0, w') && w' == w.(rt := w'.rt) && w'.rt.state == CANCELLED
  {
    hide Reaches;
    var reject := Command(id, CommandType.Rejected, Actor.Buyer, w.rt.revision, Payload(w.terms, None, 0));
    Takes(w0, w, RuntimeMoves(Submit(reject)));
    var w1 := Next(w, RuntimeMoves(Submit(reject)));
    assert w1 == w.(rt := w1.rt) && w1.rt.state == REJECTED;
    Takes(w0, w1, RuntimeMoves(Observe(AppealResponseExpired)));
    w' := Next(w1, RuntimeMoves(Observe(AppealResponseExpired)));
  }

  /** It observes the refund and ends, without revoking. */
  lemma ProbeObserves(w0: World, w: World, tid: nat) returns (w': World)
    requires Reaches(w0, w) && tid in w.threads && w.threads[tid] == DeliverProbe && w.rec.Some? &&
      w.rt.state == CANCELLED
    ensures Reaches(w0, w') && w' == DeliverEnd(Observed(w, Read(w)), tid)
  {
    hide CsCheck, CsAccept, NoteDone, FundSign, RejectionSign, RefreshDone, WatchDone, DeliverCheck,
      DeliverMint, DeliverCommand;
    hide Step, Reaches;
    Takes(w0, w, Serves(tid));
    var w1 := Next(w, Serves(tid));
    assert w1 == Put(w, tid, DeliverProbeReply(Read(w)));
    Takes(w0, w1, Resumes(tid));
    w' := Next(w1, Resumes(tid));
    assert w'.threads == w.threads - {tid};
  }

  /**
   Observing a refund is not applying it: the delivery commits and its reply is lost, the buyer rejects and is
   refunded, the delivery's own probe records CANCELLED, and the file is still served, until the watcher reads the
   same state. No late countersign is needed.
   */
  lemma ObservedRefundServes(seller: Seller, dealId: Text, a: Acceptance)
    requires Passed(seller, dealId, a)
    ensures exists labels :: var w := Live.Run(Start(seller, dealId, a.contract.terms), labels);
      && Committed(w) != [] && w.rt.state == CANCELLED
      && w.rec.Some? && w.rec.value.runtimeState == Some(CANCELLED)
      && !w.stale && ArtifactFor(w, DataCsv, 7) != Nothing
  {
    hide Passed, Next, Reaches;
    var w0 := Start(seller, dealId, a.contract.terms);
    var w1, tid, id := DeliversSilently(seller, dealId, a);
    var w2 := BuyerRefunded(w0, w1, id);
    var w3 := ProbeObserves(w0, w2, tid);
    ServedUnderRefund(w0, w3, seller, dealId, a.contract.terms);
  }

  lemma ServedUnderRefund(w0: World, w: World, seller: Seller, dealId: Text, terms: Terms)
    requires w0 == Start(seller, dealId, terms) && Reaches(w0, w)
    requires w.rt.state == CANCELLED && w.rec.Some? && w.rec.value.runtimeState == Some(CANCELLED)
    requires w.rec.value.token == Some(7) && w.rec.value.csv == Some([]) && !w.rec.value.revoked && !w.stale
    ensures exists labels :: var v := Live.Run(w0, labels);
      && Committed(v) != [] && v.rt.state == CANCELLED
      && v.rec.Some? && v.rec.value.runtimeState == Some(CANCELLED)
      && !v.stale && ArtifactFor(v, DataCsv, 7) != Nothing
  {
    var labels :| Live.Run(w0, labels) == w;
    StartInv(seller, dealId, terms);
    RunInv(w0, labels);
    hide Live.Run, Start, ThreadsOk, Guarded, SignaturesOk, Deliveries, Consistent;
  }
}
