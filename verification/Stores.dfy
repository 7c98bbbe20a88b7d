/**
 The seller's bounded in-memory stores as values: negotiations, accepted quotes, deals, one global history
 counter, and what each operation makes of them. Maps iterate in insertion order, which is kept beside them.
 */
module Stores {
  import opened Sorting
  import opened Agreement

  type Id = nat

  const MAX_OPEN_NEGOTIATIONS := 1024
  const MAX_RECLAIMABLE_DEALS := 1024
  const RECLAIMABLE_DEAL_TTL_MS := 15 * 60 * 1000
  const MAX_HISTORY_ENTRIES_PER_DEAL := 512

  // ------------------------------------------------------------------ records

  datatype Kind =
    | QueryAsked | QuoteAnswered | ProposalTaken | ProposalAcknowledged | AcceptanceRequested | AcceptanceRefused
    | AcceptanceResult | RuntimeState | DeliveryPrepared | CapabilityRevoked | Interaction

  datatype Entry = Entry(sequence: nat, at: int, kind: Kind, state: Option<State>)

  datatype Quote = Quote(buyer: Id, termsHash: Id, history: seq<Entry>)

  datatype NegotiationState = QUOTED | REFUSED | AGREEMENT_STARTED

  datatype Negotiation = Negotiation(buyer: Id, state: NegotiationState, dealIds: seq<Id>, history: seq<Entry>)

  datatype DealState = PROPOSED_LOCAL | ACCEPTED_LOCAL | DELIVERED_LOCAL

  /** `pin` is the terms hash named by the acceptance criteria, when they name one. */
  datatype Contract = Contract(buyer: Id, pin: Option<Id>, rest: Id)

  datatype Deal = Deal(
    negotiationId: Id, state: DealState, runtimeState: Option<State>, runtimeRevision: Option<int>, termsHash: Id,
    buyerAddress: Id, contract: Contract, updatedAt: int, history: seq<Entry>, token: Option<Id>, revoked: bool,
    artifact: Option<Id>)

  /** Everything ever entered for a deal, and every non-empty state its Runtime was seen in. */
  datatype Log = Log(entries: seq<Entry>, observed: seq<State>)

  datatype Store = Store(
    negotiations: map<Id, Negotiation>, negotiationOrder: seq<Id>, quotes: map<Id, Quote>, deals: map<Id, Deal>,
    dealOrder: seq<Id>, sequence: nat, logs: map<Id, Log>)

  function Empty(): Store { Store(map[], [], map[], map[], [], 0, map[]) }

  // ------------------------------------------------------------------ small tools

  function Remove(s: seq<Id>, x: Id): (r: seq<Id>)
    ensures forall y :: y in r <==> y in s && y != x
    ensures x !in s ==> r == s
    ensures |r| <= |s|
  {
    if s == [] then []
    else if s[|s| - 1] == x then Remove(s[..|s| - 1], x)
    else Remove(s[..|s| - 1], x) + [s[|s| - 1]]
  }

  lemma {:induction false} RemoveDistinct(s: seq<Id>, x: Id)
    requires Distinct(s)
    ensures Distinct(Remove(s, x))
    ensures |Remove(s, x)| == if x in s then |s| - 1 else |s|
  {
    if s != [] {
      var last := s[|s| - 1];
      RemoveDistinct(s[..|s| - 1], x);
      assert last !in s[..|s| - 1];
      assert s == s[..|s| - 1] + [last];
      assert last !in Remove(s[..|s| - 1], x);
    }
  }

  lemma {:induction false} SetOfSeq(s: seq<Id>, a: set<Id>)
    requires forall x :: x in a ==> x in s
    ensures |a| <= |s|
  {
    if s != [] {
      var x := s[|s| - 1];
      SetOfSeq(s[..|s| - 1], a - {x});
      if x in a { assert a == a - {x} + {x}; } else { assert a - {x} == a; }
    } else {
      assert a == {};
    }
  }

  /** The tail a capped history keeps. */
  function Trim(h: seq<Entry>): (r: seq<Entry>)
    ensures |r| <= MAX_HISTORY_ENTRIES_PER_DEAL
    ensures |h| <= MAX_HISTORY_ENTRIES_PER_DEAL ==> r == h
  {
    if |h| > MAX_HISTORY_ENTRIES_PER_DEAL then h[|h| - MAX_HISTORY_ENTRIES_PER_DEAL..] else h
  }

  /** Trimming as entries arrive keeps what trimming once at the end would. */
  lemma TrimStep(h: seq<Entry>, e: Entry)
    ensures Trim(Trim(h) + [e]) == Trim(h + [e])
  {
  }

  // ------------------------------------------------------------------ reclaiming deals

  /** Never past formation: locally undelivered, and unseen or unfunded on its Runtime. */
  predicate Reclaimable(d: Deal) {
    && (d.runtimeState.Some? ==> d.runtimeState.value in {PROPOSED, EXPIRED, CANCELLED})
    && d.state in {PROPOSED_LOCAL, ACCEPTED_LOCAL}
  }

  predicate Expired(d: Deal, now: int) { now - d.updatedAt > RECLAIMABLE_DEAL_TTL_MS }

  function Unlink(n: Negotiation, id: Id): Negotiation {
    var rest := Remove(n.dealIds, id);
    n.(dealIds := rest, state := if rest == [] then QUOTED else n.state)
  }

  function DeleteDeal(s: Store, id: Id): Store {
    if id !in s.deals then s
    else
      var n := s.deals[id].negotiationId;
      s.(deals := s.deals - {id}, dealOrder := Remove(s.dealOrder, id), logs := s.logs - {id},
         negotiations := if n in s.negotiations then s.negotiations[n := Unlink(s.negotiations[n],
           id)] else s.negotiations)
  }

  function DeleteAll(s: Store, ids: seq<Id>): Store {
    if ids == [] then s else DeleteDeal(DeleteAll(s, ids[..|ids| - 1]), ids[|ids| - 1])
  }

  /** The reclaimable deals in insertion order: those past their time, and the rest. */
  function Stale(s: Store, now: int, order: seq<Id>): (r: seq<Id>)
    ensures forall d :: d in r <==> d in order && d in s.deals && Reclaimable(s.deals[d]) && Expired(s.deals[d], now)
  {
    if order == [] then []
    else
      var d := order[|order| - 1];
      var before := Stale(s, now, order[..|order| - 1]);
      if d in s.deals && Reclaimable(s.deals[d]) && Expired(s.deals[d], now) then before + [d] else before
  }

  function Fresh(s: Store, now: int, order: seq<Id>): (r: seq<Id>)
    ensures forall d :: d in r <==> d in order && d in s.deals && Reclaimable(s.deals[d]) && !Expired(s.deals[d], now)
  {
    if order == [] then []
    else
      var d := order[|order| - 1];
      var before := Fresh(s, now, order[..|order| - 1]);
      if d in s.deals && Reclaimable(s.deals[d]) && !Expired(s.deals[d], now) then before + [d] else before
  }

  function Excess(n: nat): nat { if n > MAX_RECLAIMABLE_DEALS - 1 then n - (MAX_RECLAIMABLE_DEALS - 1) else 0 }

  function Victims(s: Store, now: int): seq<Id> {
    var young := Fresh(s, now, s.dealOrder);
    Stale(s, now, s.dealOrder) + young[..Excess(|young|)]
  }

  function PruneDeals(s: Store, now: int): Store { DeleteAll(s, Victims(s, now)) }

  // ------------------------------------------------------------------ evicting negotiations

  function Referenced(s: Store): set<Id> { set d | d in s.deals :: s.deals[d].negotiationId }

  function DropNegotiation(s: Store, n: Id): Store {
    s.(negotiations := s.negotiations - {n}, negotiationOrder := Remove(s.negotiationOrder, n),
      quotes := s.quotes - {n})
  }

  /** Oldest first, skipping what a deal or the caller still needs, until the cap is met. */
  function Evict(s: Store, keys: seq<Id>, keep: set<Id>): Store
    decreases |keys|
  {
    if keys == [] || |s.negotiations| <= MAX_OPEN_NEGOTIATIONS then s
    else if keys[0] in keep then Evict(s, keys[1..], keep)
    else Evict(DropNegotiation(s, keys[0]), keys[1..], keep)
  }

  function PruneNegotiations(s: Store, justIssued: Id): Store {
    Evict(s, s.negotiationOrder, Referenced(s) + {justIssued})
  }

  // ------------------------------------------------------------------ history

  function Append(d: Deal, e: Entry): Deal { d.(history := Trim(d.history + [e]), updatedAt := e.at) }

  /** A deal and its log rewritten in place. */
  function Amend(s: Store, id: Id, d: Deal, log: Log, sequence: nat): Store {
    s.(sequence := sequence, deals := s.deals[id := d], logs := s.logs[id := log])
  }

  function Logged(log: Log, e: Entry): Log { log.(entries := log.entries + [e]) }

  /** `recordInteraction`. */
  function Record(s: Store, id: Id, now: int, kind: Kind, state: Option<State>): Store {
    if id !in s.deals || id !in s.logs then s
    else
      var e := Entry(s.sequence + 1, now, kind, state);
      Amend(s, id, Append(s.deals[id], e), Logged(s.logs[id], e), s.sequence + 1)
  }

  // ------------------------------------------------------------------ operations

  datatype Operation =
    | Ask(negotiationId: Id, buyer: Id, validBuyer: bool, termsHash: Option<Id>)
    | Propose(dealId: Id, negotiationId: Id, contract: Contract, buyerAddress: Id)
    | Register(dealId: Id, negotiationId: Id, contract: Contract, buyerAddress: Id)
    | Accept(dealId: Id, proposed: Option<Contract>, passes: bool)
    | Observe(dealId: Id, state: Option<State>, revision: Option<int>)
    | Interact(dealId: Id)
    | Prepare(dealId: Id, token: Id, artifact: Option<Id>)
    | Revoke(dealId: Id)

  /** Random ids do not repeat. */
  predicate FreshIds(s: Store, o: Operation) {
    match o
    case Ask(n, _, _, _) => n !in s.negotiations && n !in s.quotes && n !in Referenced(s)
    case Propose(d, _, _, _) => d !in s.deals
    case _ => true
  }

  /** The negotiation `quote` opens; a refused or unpriceable query leaves it without a quote. */
  function Open(s: Store, n: Id, buyer: Id, termsHash: Option<Id>, now: int): Store {
    var history := [Entry(s.sequence + 1, now, QueryAsked, None), Entry(s.sequence + 2, now, QuoteAnswered, None)];
    var negotiation := Negotiation(buyer, if termsHash.Some? then QUOTED else REFUSED, [], history);
    s.(sequence := s.sequence + 2, negotiations := s.negotiations[n := negotiation],
       negotiationOrder := s.negotiationOrder + [n],
       quotes := if termsHash.Some? then s.quotes[n := Quote(buyer, termsHash.value, history)] else s.quotes)
  }

  function AskStep(s: Store, n: Id, buyer: Id, termsHash: Option<Id>, now: int): Store {
    PruneNegotiations(Open(s, n, buyer, termsHash, now), n)
  }

  /** `selectedQuote`. */
  predicate Selects(s: Store, n: Id, c: Contract) {
    n in s.quotes && c.pin == Some(s.quotes[n].termsHash) && c.buyer == s.quotes[n].buyer
  }

  /** A new deal under its negotiation, starting with a copy of the quote exchange. */
  function AddDeal(s: Store, id: Id, n: Id, c: Contract, address: Id, now: int): Store
    requires n in s.quotes && n in s.negotiations
  {
    var history := s.quotes[n].history;
    var deal := Deal(n, PROPOSED_LOCAL, None, None, s.quotes[n].termsHash, address, c, now, history, None, false, None);
    var ids := s.negotiations[n].dealIds;
    s.(deals := s.deals[id := deal], dealOrder := s.dealOrder + [id], logs := s.logs[id := Log(history, [])],
       negotiations := s.negotiations[n :=
         s.negotiations[n].(state := AGREEMENT_STARTED, dealIds := if id in ids then ids else ids + [id])])
  }

  function ProposeStep(s: Store, id: Id, n: Id, c: Contract, address: Id, now: int): (Store, bool) {
    var p := PruneDeals(s, now);
    if !Selects(p, n, c) || n !in p.negotiations || id in p.deals then (p, false)
    else
      var q := AddDeal(p, id, n, c, address, now);
      (Record(Record(q, id, now, ProposalTaken, None), id, now, ProposalAcknowledged, None), true)
  }

  /** A retry must match what was observed, and then changes nothing. */
  function RegisterStep(s: Store, id: Id, n: Id, c: Contract, address: Id, now: int): (Store, bool) {
    var p := PruneDeals(s, now);
    if !Selects(p, n, c) || n !in p.negotiations then (p, false)
    else if id in p.deals then
      var d := p.deals[id];
      (p, d.negotiationId == n && d.termsHash == p.quotes[n].termsHash && d.buyerAddress == address)
    else (Record(AddDeal(p, id, n, c, address, now), id, now, ProposalTaken, Some(PROPOSED)), true)
  }

  /** The countersigned contract becomes the record's, and the deal is accepted whatever it was before. */
  function Adopt(s: Store, id: Id, proposal: Contract, now: int): Store
    requires id in s.deals && id in s.logs
  {
    var d := s.deals[id].(contract := proposal, state := ACCEPTED_LOCAL);
    Record(Amend(s, id, d, s.logs[id], s.sequence), id, now, AcceptanceResult, None)
  }

  function AcceptStep(s: Store, id: Id, proposed: Option<Contract>, passes: bool, now: int): (Store, bool) {
    if id !in s.deals || s.deals[id].negotiationId !in s.quotes then (s, false)
    else
      var proposal := if proposed.Some? then proposed.value else s.deals[id].contract;
      var r := Record(s, id, now, AcceptanceRequested, s.deals[id].runtimeState);
      if !passes || proposal.pin != Some(s.quotes[s.deals[id].negotiationId].termsHash) || id !in r.deals ||
        id !in r.logs then
        (Record(r, id, now, AcceptanceRefused, s.deals[id].runtimeState), false)
      else
        (Adopt(r, id, proposal, now), true)
  }

  /** The latest reading, noted on the record whether or not it changed. */
  function Observed(s: Store, id: Id, state: Option<State>, revision: Option<int>): Store
    requires id in s.deals && id in s.logs && state.Some?
  {
    var d := s.deals[id];
    Amend(s, id, d.(runtimeState := state, runtimeRevision := if revision.Some? then revision else d.runtimeRevision),
      s.logs[id].(observed := s.logs[id].observed + [state.value]), s.sequence)
  }

  /** Only a change of state is entered; a poll that sees none leaves no entry. */
  function ObserveStep(s: Store, id: Id, state: Option<State>, revision: Option<int>, now: int): (Store, bool) {
    if id !in s.deals || id !in s.logs then (s, false)
    else if state.None? then (s, true)
    else
      var r := Observed(s, id, state, revision);
      (if s.deals[id].runtimeState != state then Record(r, id, now, RuntimeState, state) else r, true)
  }

  function PrepareStep(s: Store, id: Id, token: Id, artifact: Option<Id>, now: int): (Store, bool) {
    if id !in s.deals || id !in s.logs || s.deals[id].state.PROPOSED_LOCAL? ||
      s.deals[id].negotiationId !in s.quotes || artifact.None? then
      (s, false)
    else
      var d := s.deals[id].(token := Some(token), artifact := artifact, state := DELIVERED_LOCAL);
      (Record(Amend(s, id, d, s.logs[id], s.sequence), id, now, DeliveryPrepared, None), true)
  }

  function RevokeStep(s: Store, id: Id, now: int): Store {
    if id !in s.deals || id !in s.logs || s.deals[id].revoked then s
    else
      var d := s.deals[id].(revoked := true);
      Record(Amend(s, id, d, s.logs[id], s.sequence), id, now, CapabilityRevoked, d.runtimeState)
  }

  /** The new stores, and whether the call returned rather than threw. */
  function Next(s: Store, o: Operation, now: int): (Store, bool) {
    match o
    case Ask(n, buyer, valid, termsHash) => if valid then (AskStep(s, n, buyer, termsHash, now), true) else (s, false)
    case Propose(d, n, c, address) => ProposeStep(s, d, n, c, address, now)
    case Register(d, n, c, address) => RegisterStep(s, d, n, c, address, now)
    case Accept(d, proposed, passes) => AcceptStep(s, d, proposed, passes, now)
    case Observe(d, state, revision) => ObserveStep(s, d, state, revision, now)
    case Interact(d) => (Record(s, d, now, Interaction, None), d in s.deals)
    case Prepare(d, token, artifact) => PrepareStep(s, d, token, artifact, now)
    case Revoke(d) => (RevokeStep(s, d, now), true)
  }

  /** What a deal's record says about downloads. */
  datatype Service = Service(token: Option<Id>, artifact: Option<Id>, revoked: bool)

  function ServiceOf(d: Deal): Service { Service(d.token, d.artifact, d.revoked) }

  /** `artifactFor`: right deal, right token, not revoked. */
  function ArtifactFor(s: Store, id: Id, cap: Option<Id>): Option<Id> {
    if id !in s.deals || s.deals[id].token.None? || s.deals[id].revoked || cap.None? ||
      cap != s.deals[id].token then None
    else s.deals[id].artifact
  }

  // ------------------------------------------------------------------ what every run keeps

  /** The orders list the maps' keys once each. */
  ghost predicate Ordered(s: Store) {
    && Distinct(s.dealOrder) && (forall d :: d in s.dealOrder <==> d in s.deals)
    && Distinct(s.negotiationOrder) && (forall n :: n in s.negotiationOrder <==> n in s.negotiations)
    && (forall d :: d in s.logs <==> d in s.deals)
  }

  /** Every deal rests on a live quote with its terms hash, and its negotiation lists it. */
  ghost predicate DealsRest(s: Store) {
    forall d :: d in s.deals ==>
      var n := s.deals[d].negotiationId;
      n in s.negotiations && n in s.quotes && s.quotes[n].termsHash == s.deals[d].termsHash &&
        d in s.negotiations[n].dealIds
  }

  /**
   A negotiation lists exactly its deals, once each, and its state says whether there are any and whether there is
   a quote.
   */
  ghost predicate NegotiationTells(s: Store, n: Id)
    requires n in s.negotiations
  {
    var g := s.negotiations[n];
    && Distinct(g.dealIds)
    && (forall d :: d in g.dealIds ==> d in s.deals && s.deals[d].negotiationId == n)
    && (g.state == AGREEMENT_STARTED <==> g.dealIds != [])
    && (g.state == REFUSED <==> n !in s.quotes)
  }

  ghost predicate NegotiationsTell(s: Store) { forall n :: n in s.negotiations ==> NegotiationTells(s, n) }

  /** A quote belongs to a negotiation with the same buyer and the same exchange. */
  ghost predicate QuotesBelong(s: Store) {
    forall n :: n in s.quotes ==>
      n in s.negotiations && s.quotes[n].buyer == s.negotiations[n].buyer &&
        s.quotes[n].history == s.negotiations[n].history
  }

  ghost predicate Agree(s: Store) { Ordered(s) && DealsRest(s) && NegotiationsTell(s) && QuotesBelong(s) }

  /** Every deal's contract names the buyer its quote was issued to. */
  ghost predicate BuyersAgree(s: Store) {
    forall d :: d in s.deals && s.deals[d].negotiationId in s.quotes ==>
      s.deals[d].contract.buyer == s.quotes[s.deals[d].negotiationId].buyer
  }
}
