/** Histories as exact tails of what was entered, and the theorems over every run of operations. */
module StoreTheorems {
  import opened Sorting
  import opened Agreement
  import opened Stores
  import opened StoreRuns

  // ------------------------------------------------------------------ histories

  /** Global sequence numbers, strictly increasing and none beyond the counter. */
  ghost predicate Numbered(h: seq<Entry>, counter: nat) {
    (forall i, j :: 0 <= i < j < |h| ==> h[i].sequence < h[j].sequence) && forall i :: 0 <= i < |h| ==>
      h[i].sequence <= counter
  }

  /** The Runtime states entered, in order. */
  function RuntimeStates(h: seq<Entry>): seq<Option<State>> {
    if h == [] then []
    else
      var last := h[|h| - 1];
      if last.kind.RuntimeState? then RuntimeStates(h[..|h| - 1]) + [last.state] else RuntimeStates(h[..|h| - 1])
  }

  /** Consecutive repeats removed. */
  function Collapse(o: seq<State>): seq<Option<State>> {
    if o == [] then []
    else if |o| > 1 && o[|o| - 2] == o[|o| - 1] then Collapse(o[..|o| - 1])
    else Collapse(o[..|o| - 1]) + [Some(o[|o| - 1])]
  }

  function LastSeen(o: seq<State>): Option<State> { if o == [] then None else Some(o[|o| - 1]) }

  /** What a deal shows is the tail of what was entered, and what was entered are the observed changes. */
  ghost predicate Told(d: Deal, log: Log, counter: nat) {
    && d.history == Trim(log.entries) && Numbered(log.entries, counter)
    && RuntimeStates(log.entries) == Collapse(log.observed) && d.runtimeState == LastSeen(log.observed)
  }

  ghost predicate Exchange(h: seq<Entry>, counter: nat) {
    |h| == 2 && h[0].kind.QueryAsked? && h[1].kind.QuoteAnswered? && Numbered(h, counter)
  }

  ghost predicate Histories(s: Store) {
    && (forall d :: d in s.deals ==> d in s.logs && Told(s.deals[d], s.logs[d], s.sequence))
    && (forall n :: n in s.quotes ==> Exchange(s.quotes[n].history, s.sequence))
  }

  lemma ToldLater(d: Deal, log: Log, k: nat, m: nat)
    requires Told(d, log, k) && k <= m
    ensures Told(d, log, m)
  {
  }

  lemma ExchangeLater(h: seq<Entry>, k: nat, m: nat)
    requires Exchange(h, k) && k <= m
    ensures Exchange(h, m)
  {
  }

  /** An entry that is not a Runtime state. */
  lemma ToldEntry(d: Deal, log: Log, k: nat, e: Entry)
    requires Told(d, log, k) && e.sequence == k + 1 && !e.kind.RuntimeState?
    ensures Told(Append(d, e), Logged(log, e), k + 1)
  {
    TrimStep(log.entries, e);
    assert (log.entries + [e])[..|log.entries|] == log.entries;
  }

  /** A reading that repeats the last one leaves no trace but itself. */
  lemma ToldRepeat(d: Deal, d': Deal, log: Log, k: nat, state: State)
    requires Told(d, log, k) && d.runtimeState == Some(state)
    requires d'.history == d.history && d'.runtimeState == Some(state)
    ensures Told(d', log.(observed := log.observed + [state]), k)
  {
    assert (log.observed + [state])[..|log.observed|] == log.observed;
  }

  /** A reading that changes the state is entered once. */
  lemma ToldChange(d: Deal, d': Deal, log: Log, k: nat, state: State, e: Entry)
    requires Told(d, log, k) && d.runtimeState != Some(state) && e.sequence == k + 1
    requires e.kind.RuntimeState? && e.state == Some(state)
    requires d'.history == d.history && d'.runtimeState == Some(state)
    ensures Told(Append(d', e), Logged(log.(observed := log.observed + [state]), e), k + 1)
  {
    TrimStep(log.entries, e);
    assert (log.entries + [e])[..|log.entries|] == log.entries;
    assert (log.observed + [state])[..|log.observed|] == log.observed;
  }

  /** Rewriting one deal: its own log is told, the rest are as before. */
  lemma AmendTold(s: Store, id: Id, d: Deal, log: Log, k: nat)
    requires Histories(s) && id in s.deals && s.sequence <= k && Told(d, log, k)
    ensures Histories(Amend(s, id, d, log, k))
  {
    hide Told, Exchange;
    var r := Amend(s, id, d, log, k);
    forall x | x in r.deals ensures x in r.logs && Told(r.deals[x], r.logs[x], k) {
      if x != id { ToldLater(s.deals[x], s.logs[x], s.sequence, k); }
    }
    forall n | n in r.quotes ensures Exchange(r.quotes[n].history, k) { ExchangeLater(s.quotes[n].history,
      s.sequence, k); }
  }

  lemma RecordTold(s: Store, id: Id, now: int, kind: Kind, state: Option<State>)
    requires Histories(s) && !kind.RuntimeState?
    ensures Histories(Record(s, id, now, kind, state))
  {
    hide Amend, Append, Logged, Told;
    if id in s.deals && id in s.logs {
      var e := Entry(s.sequence + 1, now, kind, state);
      ToldEntry(s.deals[id], s.logs[id], s.sequence, e);
      AmendTold(s, id, Append(s.deals[id], e), Logged(s.logs[id], e), s.sequence + 1);
    }
  }

  lemma {:induction false} DeleteAllTold(s: Store, ids: seq<Id>)
    requires Histories(s) && (forall d :: d in s.logs <==> d in s.deals)
    ensures Histories(DeleteAll(s, ids)) && (forall d :: d in DeleteAll(s, ids).logs <==> d in DeleteAll(s, ids).deals)
  {
    hide Told, Exchange;
    if ids != [] { DeleteAllTold(s, ids[..|ids| - 1]); }
  }

  lemma EvictTold(s: Store, keys: seq<Id>, keep: set<Id>)
    requires Histories(s)
    ensures Histories(Evict(s, keys, keep))
  {
    hide Told, Exchange;
    EvictKeeps(s, keys, keep);
  }

  lemma AskTold(s: Store, n: Id, buyer: Id, termsHash: Option<Id>, now: int)
    requires Histories(s)
    ensures Histories(AskStep(s, n, buyer, termsHash, now))
  {
    OpenTold(s, n, buyer, termsHash, now);
    var r := Open(s, n, buyer, termsHash, now);
    hide Histories, Open;
    EvictTold(r, r.negotiationOrder, Referenced(r) + {n});
  }

  lemma OpenTold(s: Store, n: Id, buyer: Id, termsHash: Option<Id>, now: int)
    requires Histories(s)
    ensures Histories(Open(s, n, buyer, termsHash, now))
  {
    var r := Open(s, n, buyer, termsHash, now);
    assert termsHash.Some? ==> Exchange(r.quotes[n].history, r.sequence);
    hide Told, Exchange;
    forall x | x in r.deals ensures x in r.logs && Told(r.deals[x], r.logs[x], r.sequence) {
      ToldLater(s.deals[x], s.logs[x], s.sequence, r.sequence);
    }
    forall m | m in r.quotes ensures Exchange(r.quotes[m].history, r.sequence) {
      if m in s.quotes && r.quotes[m] == s.quotes[m] { ExchangeLater(s.quotes[m].history, s.sequence, r.sequence); }
    }
  }

  lemma AddTold(s: Store, id: Id, n: Id, c: Contract, address: Id, now: int)
    requires Histories(s) && n in s.quotes && n in s.negotiations && id !in s.deals
    ensures Histories(AddDeal(s, id, n, c, address, now))
  {
    var r := AddDeal(s, id, n, c, address, now);
    CopyTold(r.deals[id], s.quotes[n].history, s.sequence);
    hide Told, Exchange;
  }

  lemma CopyTold(d: Deal, h: seq<Entry>, k: nat)
    requires Exchange(h, k) && d.history == h && d.runtimeState == None
    ensures Told(d, Log(h, []), k)
  {
    assert h[..2] == h && h[..2][..1] == [h[0]];
    assert RuntimeStates(h[..1]) == RuntimeStates([]) by { assert h[..1][..0] == []; }
  }

  lemma PruneTold(s: Store, now: int)
    requires Agree(s) && Histories(s)
    ensures Histories(PruneDeals(s, now))
  {
    DeleteAllTold(s, Victims(s, now));
  }

  lemma ProposeTold(s: Store, id: Id, n: Id, c: Contract, address: Id, now: int)
    requires Agree(s) && Histories(s)
    ensures Histories(ProposeStep(s, id, n, c, address, now).0)
  {
    hide Agree, Histories, PruneDeals, AddDeal, Record;
    PruneTold(s, now);
    var p := PruneDeals(s, now);
    if Selects(p, n, c) && n in p.negotiations && id !in p.deals {
      AddTold(p, id, n, c, address, now);
      var q := AddDeal(p, id, n, c, address, now);
      RecordTold(q, id, now, ProposalTaken, None);
      RecordTold(Record(q, id, now, ProposalTaken, None), id, now, ProposalAcknowledged, None);
    }
  }

  lemma RegisterTold(s: Store, id: Id, n: Id, c: Contract, address: Id, now: int)
    requires Agree(s) && Histories(s)
    ensures Histories(RegisterStep(s, id, n, c, address, now).0)
  {
    hide Agree, Histories, PruneDeals, AddDeal, Record;
    PruneTold(s, now);
    var p := PruneDeals(s, now);
    if Selects(p, n, c) && n in p.negotiations && id !in p.deals {
      AddTold(p, id, n, c, address, now);
      RecordTold(AddDeal(p, id, n, c, address, now), id, now, ProposalTaken, Some(PROPOSED));
    }
  }

  lemma AcceptTold(s: Store, id: Id, proposed: Option<Contract>, passes: bool, now: int)
    requires Histories(s)
    ensures Histories(AcceptStep(s, id, proposed, passes, now).0)
  {
    if id in s.deals && s.deals[id].negotiationId in s.quotes {
      RecordTold(s, id, now, AcceptanceRequested, s.deals[id].runtimeState);
      var r := Record(s, id, now, AcceptanceRequested, s.deals[id].runtimeState);
      hide Record, Adopt, Told, Exchange;
      RecordTold(r, id, now, AcceptanceRefused, s.deals[id].runtimeState);
      if id in r.deals && id in r.logs {
        AdoptTold(r, id, if proposed.Some? then proposed.value else s.deals[id].contract, now);
      }
    }
  }

  lemma AdoptTold(s: Store, id: Id, proposal: Contract, now: int)
    requires Histories(s) && id in s.deals && id in s.logs
    ensures Histories(Adopt(s, id, proposal, now))
  {
    hide Record, Amend, Told, Exchange;
    var d := s.deals[id].(contract := proposal, state := ACCEPTED_LOCAL);
    ToldUntouched(s.deals[id], d, s.logs[id], s.sequence);
    AmendTold(s, id, d, s.logs[id], s.sequence);
    RecordTold(Amend(s, id, d, s.logs[id], s.sequence), id, now, AcceptanceResult, None);
  }

  lemma ToldUntouched(d: Deal, d': Deal, log: Log, k: nat)
    requires Told(d, log, k) && d'.history == d.history && d'.runtimeState == d.runtimeState
    ensures Told(d', log, k)
  {
  }

  lemma ObserveTold(s: Store, id: Id, state: Option<State>, revision: Option<int>, now: int)
    requires Histories(s)
    ensures Histories(ObserveStep(s, id, state, revision, now).0)
  {
    hide Told, Exchange, Amend, Append, Logged, Observed, Record, Histories;
    if id in s.deals && id in s.logs && state.Some? {
      if s.deals[id].runtimeState == state {
        RepeatTold(s, id, state, revision);
      } else {
        ChangeTold(s, id, state, revision, now);
      }
    }
  }

  lemma RepeatTold(s: Store, id: Id, state: Option<State>, revision: Option<int>)
    requires Histories(s) && id in s.deals && id in s.logs && state.Some? && s.deals[id].runtimeState == state
    ensures Histories(Observed(s, id, state, revision))
  {
    hide Told, Exchange, Amend;
    var d := s.deals[id];
    var d' := d.(runtimeState := state, runtimeRevision := if revision.Some? then revision else d.runtimeRevision);
    ToldRepeat(d, d', s.logs[id], s.sequence, state.value);
    AmendTold(s, id, d', s.logs[id].(observed := s.logs[id].observed + [state.value]), s.sequence);
  }

  lemma ChangeTold(s: Store, id: Id, state: Option<State>, revision: Option<int>, now: int)
    requires Histories(s) && id in s.deals && id in s.logs && state.Some? && s.deals[id].runtimeState != state
    ensures Histories(Record(Observed(s, id, state, revision), id, now, RuntimeState, state))
  {
    hide Told, Exchange, Amend, Append, Logged;
    var d, log := s.deals[id], s.logs[id];
    var d' := d.(runtimeState := state, runtimeRevision := if revision.Some? then revision else d.runtimeRevision);
    var log' := log.(observed := log.observed + [state.value]);
    var e := Entry(s.sequence + 1, now, RuntimeState, state);
    AmendTwice(s, id, d', log', s.sequence, Append(d', e), Logged(log', e), s.sequence + 1);
    AmendHolds(s, id, d', log', s.sequence);
    ToldChange(d, d', log, s.sequence, state.value, e);
    AmendTold(s, id, Append(d', e), Logged(log', e), s.sequence + 1);
  }

  lemma AmendHolds(s: Store, id: Id, d: Deal, log: Log, k: nat)
    ensures var r := Amend(s, id, d, log, k);
      id in r.deals && id in r.logs && r.deals[id] == d && r.logs[id] == log && r.sequence == k
  {
  }

  lemma AmendTwice(s: Store, id: Id, d: Deal, log: Log, k: nat, d': Deal, log': Log, k': nat)
    ensures Amend(Amend(s, id, d, log, k), id, d', log', k') == Amend(s, id, d', log', k')
  {
    assert s.deals[id := d][id := d'] == s.deals[id := d'] && s.logs[id := log][id := log'] == s.logs[id := log'];
  }

  lemma PrepareTold(s: Store, id: Id, token: Id, artifact: Option<Id>, now: int)
    requires Histories(s)
    ensures Histories(PrepareStep(s, id, token, artifact, now).0)
  {
    hide Record, Amend, Told, Exchange;
    if id in s.deals && id in s.logs {
      var d := s.deals[id].(token := Some(token), artifact := artifact, state := DELIVERED_LOCAL);
      ToldUntouched(s.deals[id], d, s.logs[id], s.sequence);
      AmendTold(s, id, d, s.logs[id], s.sequence);
      RecordTold(Amend(s, id, d, s.logs[id], s.sequence), id, now, DeliveryPrepared, None);
    }
  }

  lemma RevokeTold(s: Store, id: Id, now: int)
    requires Histories(s)
    ensures Histories(RevokeStep(s, id, now))
  {
    hide Record, Amend, Told, Exchange;
    if id in s.deals && id in s.logs {
      var d := s.deals[id].(revoked := true);
      ToldUntouched(s.deals[id], d, s.logs[id], s.sequence);
      AmendTold(s, id, d, s.logs[id], s.sequence);
      RecordTold(Amend(s, id, d, s.logs[id], s.sequence), id, now, CapabilityRevoked, d.runtimeState);
    }
  }

  lemma NextTold(s: Store, o: Operation, now: int)
    requires Agree(s) && Histories(s)
    ensures Histories(Next(s, o, now).0)
  {
    hide Agree, Histories, AskStep, ProposeStep, RegisterStep, AcceptStep, ObserveStep, Record, PrepareStep, RevokeStep;
    match o
    case Ask(n, buyer, valid, termsHash) => if valid { AskTold(s, n, buyer, termsHash, now); }
    case Propose(d, n, c, address) => ProposeTold(s, d, n, c, address, now);
    case Register(d, n, c, address) => RegisterTold(s, d, n, c, address, now);
    case Accept(d, proposed, passes) => AcceptTold(s, d, proposed, passes, now);
    case Observe(d, state, revision) => ObserveTold(s, d, state, revision, now);
    case Interact(d) => RecordTold(s, d, now, Interaction, None);
    case Prepare(d, token, artifact) => PrepareTold(s, d, token, artifact, now);
    case Revoke(d) => RevokeTold(s, d, now);
  }

  // ------------------------------------------------------------------ runs

  type Timed = (Operation, int)

  /** The stores after a sequence of calls, each at its own time, some of them throwing. */
  function Run(s: Store, ops: seq<Timed>): Store {
    if ops == [] then s else Next(Run(s, ops[..|ops| - 1]), ops[|ops| - 1].0, ops[|ops| - 1].1).0
  }

  /** Random ids are new when they are drawn. */
  ghost predicate Legal(s: Store, ops: seq<Timed>) {
    forall i :: 0 <= i < |ops| ==> FreshIds(Run(s, ops[..i]), ops[i].0)
  }

  lemma LegalPrefix(s: Store, ops: seq<Timed>, k: nat)
    requires Legal(s, ops) && k <= |ops|
    ensures Legal(s, ops[..k])
  {
    forall i | 0 <= i < k ensures FreshIds(Run(s, ops[..k][..i]), ops[..k][i].0) { assert ops[..k][..i] == ops[..i]; }
  }

  /** After any sequence of operations the stores agree and every history is the tail of its log. */
  lemma {:induction false} StoresAgree(ops: seq<Timed>)
    requires Legal(Empty(), ops)
    ensures Agree(Run(Empty(), ops)) && Histories(Run(Empty(), ops))
  {
    if ops != [] {
      var k := |ops| - 1;
      LegalPrefix(Empty(), ops, k);
      StoresAgree(ops[..k]);
      var s := Run(Empty(), ops[..k]);
      assert FreshIds(s, ops[k].0);
      hide Agree, Histories, Next, FreshIds;
      NextAgrees(s, ops[k].0, ops[k].1);
      NextTold(s, ops[k].0, ops[k].1);
    }
  }

  /** What a reader of one deal's record may rely on, spelled out. */
  lemma DealRestsOnItsQuote(ops: seq<Timed>, d: Id)
    requires Legal(Empty(), ops) && d in Run(Empty(), ops).deals
    ensures var s := Run(Empty(), ops); var deal := s.deals[d];
      && deal.negotiationId in s.quotes && s.quotes[deal.negotiationId].termsHash == deal.termsHash
      && deal.negotiationId in s.negotiations && d in s.negotiations[deal.negotiationId].dealIds
      && s.negotiations[deal.negotiationId].state == AGREEMENT_STARTED
      && d in s.logs && var entered := s.logs[d].entries;
      && |deal.history| == (if |entered| > 512 then 512 else |entered|)
      && deal.history == entered[|entered| - |deal.history|..]
      && RuntimeStates(s.logs[d].entries) == Collapse(s.logs[d].observed) &&
        deal.runtimeState == LastSeen(s.logs[d].observed)
  {
    StoresAgree(ops);
    var s := Run(Empty(), ops);
    assert NegotiationTells(s, s.deals[d].negotiationId);
  }

  // ------------------------------------------------------------------ buyers

  /** An acceptance that brings its own contract brings one naming the quoted buyer. */
  predicate AcceptKnowsBuyer(s: Store, o: Operation) {
    o.Accept? && o.proposed.Some? && o.dealId in s.deals && s.deals[o.dealId].negotiationId in s.quotes ==>
      o.proposed.value.buyer == s.quotes[s.deals[o.dealId].negotiationId].buyer
  }

  /**
   Acceptance itself does not compare buyers: it keeps them agreeing exactly when it fails or its contract names
   the quoted one.
   */
  lemma AcceptKeepsBuyersIff(s: Store, id: Id, proposed: Option<Contract>, passes: bool, now: int)
    requires Agree(s) && BuyersAgree(s)
    ensures BuyersAgree(AcceptStep(s, id, proposed, passes, now).0) <==>
      !AcceptStep(s, id, proposed, passes, now).1 || AcceptKnowsBuyer(s, Accept(id, proposed, passes))
  {
    AcceptKeeps(s, id, proposed, passes, now);
    hide Record, Amend, AcceptStep, Agree;
    var r := AcceptStep(s, id, proposed, passes, now);
    if r.1 { assert r.0.deals[id].negotiationId in s.quotes; }
  }

  /** Acceptance adopts the contract it countersigns, and touches no reference and no revocation. */
  lemma AcceptKeeps(s: Store, id: Id, proposed: Option<Contract>, passes: bool, now: int)
    ensures var r := AcceptStep(s, id, proposed, passes, now);
      && r.0.quotes == s.quotes && r.0.deals.Keys == s.deals.Keys
      && (forall d :: d in s.deals ==>
            r.0.deals[d].negotiationId == s.deals[d].negotiationId && ServiceOf(r.0.deals[d]) == ServiceOf(s.deals[d]))
      && (forall d :: d in s.deals && !(r.1 && d == id) ==> r.0.deals[d].contract == s.deals[d].contract)
      && (r.1 ==> id in s.deals && s.deals[id].negotiationId in s.quotes)
      && (r.1 ==> r.0.deals[id].contract == if proposed.Some? then proposed.value else s.deals[id].contract)
  {
    hide Record, Adopt, ServiceOf;
    if id in s.deals && s.deals[id].negotiationId in s.quotes {
      var r := Record(s, id, now, AcceptanceRequested, s.deals[id].runtimeState);
      RecordLinks(s, id, now, AcceptanceRequested, s.deals[id].runtimeState);
      RecordLinks(r, id, now, AcceptanceRefused, s.deals[id].runtimeState);
      if id in r.deals && id in r.logs {
        AdoptKeeps(r, id, if proposed.Some? then proposed.value else s.deals[id].contract, now);
      }
    }
  }

  lemma RecordLinks(s: Store, id: Id, now: int, kind: Kind, state: Option<State>)
    ensures var r := Record(s, id, now, kind, state);
      && r.quotes == s.quotes && r.deals.Keys == s.deals.Keys
      && (forall d :: d in s.deals ==>
            r.deals[d].negotiationId == s.deals[d].negotiationId && ServiceOf(r.deals[d]) == ServiceOf(s.deals[d]))
      && (forall d :: d in s.deals ==> r.deals[d].contract == s.deals[d].contract)
  {
    RecordKeeps(s, id, now, kind, state);
    hide Record;
  }

  lemma AdoptKeeps(s: Store, id: Id, proposal: Contract, now: int)
    requires id in s.deals && id in s.logs
    ensures var r := Adopt(s, id, proposal, now);
      && r.quotes == s.quotes && r.deals.Keys == s.deals.Keys && r.deals[id].contract == proposal
      && (forall d :: d in s.deals ==>
            r.deals[d].negotiationId == s.deals[d].negotiationId && ServiceOf(r.deals[d]) == ServiceOf(s.deals[d]))
      && (forall d :: d in s.deals && d != id ==> r.deals[d].contract == s.deals[d].contract)
  {
    var a := Amend(s, id, s.deals[id].(contract := proposal, state := ACCEPTED_LOCAL), s.logs[id], s.sequence);
    assert a.deals.Keys == s.deals.Keys;
    RecordKeeps(a, id, now, AcceptanceResult, None);
    hide Record;
  }

  ghost predicate KnowsBuyers(s: Store, ops: seq<Timed>) {
    forall i :: 0 <= i < |ops| ==> AcceptKnowsBuyer(Run(s, ops[..i]), ops[i].0)
  }

  lemma KnowsPrefix(s: Store, ops: seq<Timed>, k: nat)
    requires KnowsBuyers(s, ops) && k <= |ops|
    ensures KnowsBuyers(s, ops[..k])
  {
    forall i | 0 <= i < k ensures AcceptKnowsBuyer(Run(s, ops[..k][..i]),
      ops[..k][i].0) { assert ops[..k][..i] == ops[..i]; }
  }

  lemma NextBuyers(s: Store, o: Operation, now: int)
    requires Agree(s) && BuyersAgree(s) && FreshIds(s, o) && AcceptKnowsBuyer(s, o)
    ensures BuyersAgree(Next(s, o, now).0)
  {
    hide Agree, BuyersAgree, FreshIds, AcceptStep, AcceptKnowsBuyer;
    NextAgrees(s, o, now);
    if o.Accept? {
      AcceptKeepsBuyersIff(s, o.dealId, o.proposed, o.passes, now);
      assert o == Accept(o.dealId, o.proposed, o.passes);
    }
  }

  /** When every contract brought to an acceptance names the quoted buyer, every stored contract does, after any run. */
  lemma {:induction false} BuyersFollow(ops: seq<Timed>)
    requires Legal(Empty(), ops) && KnowsBuyers(Empty(), ops)
    ensures BuyersAgree(Run(Empty(), ops))
  {
    if ops != [] {
      var k := |ops| - 1;
      LegalPrefix(Empty(), ops, k);
      KnowsPrefix(Empty(), ops, k);
      BuyersFollow(ops[..k]);
      StoresAgree(ops[..k]);
      var s := Run(Empty(), ops[..k]);
      assert FreshIds(s, ops[k].0) && AcceptKnowsBuyer(s, ops[k].0);
      hide Agree, BuyersAgree, FreshIds, Next, AcceptKnowsBuyer;
      NextBuyers(s, ops[k].0, ops[k].1);
    }
  }

  /** A live countersignature registers and then accepts the same contract, which is enough. */
  lemma CountersignKnowsBuyer(
      s: Store, id: Id, n: Id, c: Contract, address: Id, state: Option<State>, revision: Option<int>, passes: bool,
        now: int)
    requires Agree(s) && RegisterStep(s, id, n, c, address, now).1
    ensures var r := ObserveStep(RegisterStep(s, id, n, c, address, now).0, id, state, revision, now).0;
      AcceptKnowsBuyer(r, Accept(id, Some(c), passes))
  {
    RegisterNames(s, id, n, c, address, now);
    var r := RegisterStep(s, id, n, c, address, now).0;
    hide RegisterStep;
    ObserveKeeps(r, id, state, revision, now);
  }

  lemma RegisterNames(s: Store, id: Id, n: Id, c: Contract, address: Id, now: int)
    requires RegisterStep(s, id, n, c, address, now).1
    ensures var r := RegisterStep(s, id, n, c, address, now).0;
      id in r.deals && r.deals[id].negotiationId == n && n in r.quotes && r.quotes[n].buyer == c.buyer
  {
    hide PruneDeals, Record;
    var p := PruneDeals(s, now);
    if id !in p.deals { RecordKeeps(AddDeal(p, id, n, c, address, now), id, now, ProposalTaken, Some(PROPOSED)); }
  }

  lemma ObservedKeeps(s: Store, id: Id, state: Option<State>, revision: Option<int>)
    requires id in s.deals && id in s.logs && state.Some?
    ensures var r := Observed(s, id, state, revision);
      && r.quotes == s.quotes && r.deals.Keys == s.deals.Keys
      && forall d :: d in s.deals ==>
           && r.deals[d].negotiationId == s.deals[d].negotiationId && r.deals[d].contract == s.deals[d].contract
           && ServiceOf(r.deals[d]) == ServiceOf(s.deals[d])
  {
  }

  lemma ObserveKeeps(s: Store, id: Id, state: Option<State>, revision: Option<int>, now: int)
    ensures var r := ObserveStep(s, id, state, revision, now).0;
      && r.quotes == s.quotes && r.deals.Keys == s.deals.Keys
      && forall d :: d in s.deals ==>
           && r.deals[d].negotiationId == s.deals[d].negotiationId && r.deals[d].contract == s.deals[d].contract
           && ServiceOf(r.deals[d]) == ServiceOf(s.deals[d])
  {
    hide Record, Observed;
    if id in s.deals && id in s.logs && state.Some? {
      ObservedKeeps(s, id, state, revision);
      RecordKeeps(Observed(s, id, state, revision), id, now, RuntimeState, state);
    }
  }

  // ------------------------------------------------------------------ bounds and safety of pruning, over operations

  /** No operation loses a deal that was delivered or last seen past formation, nor takes back its revocation. */
  lemma NothingPaidForIsLost(s: Store, o: Operation, now: int, d: Id)
    requires FreshIds(s, o) && d in s.deals
    requires !MayGo(s.deals[d])
    ensures d in Next(s, o, now).0.deals
    ensures s.deals[d].revoked ==> Next(s, o, now).0.deals[d].revoked
  {
    WhatMayGo(s.deals[d]);
    hide Record, PruneDeals, Evict, MayGo, Reclaimable;
    match o
    case Ask(n, buyer, valid, termsHash) =>
      var r := Open(s, n, buyer, termsHash, now);
      EvictKeeps(r, r.negotiationOrder, Referenced(r) + {n});
    case Propose(id, n, c, address) => InsertionKeeps(s, id, n, c, address, now, d, ProposalTaken, None);
    case Register(id, n, c, address) => InsertionKeeps(s, id, n, c, address, now, d, ProposalTaken, Some(PROPOSED));
    case Accept(id, proposed, passes) => AcceptKeeps(s, id, proposed, passes, now);
    case Observe(id, state, revision) => ObserveKeeps(s, id, state, revision, now);
    case Interact(id) => RecordKeeps(s, id, now, Interaction, None);
    case Prepare(id, token, artifact) => PrepareKeeps(s, id, token, artifact, now);
    case Revoke(id) => RevokeKeeps(s, id, now);
  }

  lemma InsertionKeeps(
      s: Store, id: Id, n: Id, c: Contract, address: Id, now: int, d: Id, kind: Kind, state: Option<State>)
    requires d in s.deals && !Reclaimable(s.deals[d])
    ensures var p := PruneDeals(s, now);
      && d in p.deals && p.deals[d] == s.deals[d]
      && (id !in p.deals && n in p.negotiations && Selects(p, n, c) ==>
            var r := Record(AddDeal(p, id, n, c, address, now), id, now, kind, state);
            && d in r.deals && r.deals[d].revoked == s.deals[d].revoked
            && d in Record(r, id, now, ProposalAcknowledged, None).deals
            && Record(r, id, now, ProposalAcknowledged, None).deals[d].revoked == s.deals[d].revoked)
  {
    hide Record, PruneDeals, Reclaimable;
    KeptByPrune(s, now, d);
    var p := PruneDeals(s, now);
    if id !in p.deals && n in p.negotiations && Selects(p, n, c) {
      var q := AddDeal(p, id, n, c, address, now);
      RecordKeeps(q, id, now, kind, state);
      RecordKeeps(Record(q, id, now, kind, state), id, now, ProposalAcknowledged, None);
    }
  }

  lemma KeptByPrune(s: Store, now: int, d: Id)
    requires d in s.deals && !Reclaimable(s.deals[d])
    ensures d in PruneDeals(s, now).deals && PruneDeals(s, now).deals[d] == s.deals[d]
  {
    DeleteAllKeeps(s, Victims(s, now));
    if d !in PruneDeals(s, now).deals { PruneSafe(s, now, d); }
  }

  lemma PrepareKeeps(s: Store, id: Id, token: Id, artifact: Option<Id>, now: int)
    ensures PrepareStep(s, id, token, artifact, now).0.deals.Keys == s.deals.Keys
    ensures var r := PrepareStep(s, id, token, artifact, now);
      && (r.1 ==> id in s.deals && artifact.Some?)
      && forall d :: d in s.deals ==>
           ServiceOf(r.0.deals[d]) ==
             if r.1 && d == id then Service(Some(token), artifact, s.deals[d].revoked) else ServiceOf(s.deals[d])
  {
    hide Record;
    if id in s.deals && id in s.logs {
      var a := Amend(s, id, s.deals[id].(token := Some(token), artifact := artifact, state := DELIVERED_LOCAL),
        s.logs[id], s.sequence);
      assert a.deals.Keys == s.deals.Keys;
      RecordKeeps(a, id, now, DeliveryPrepared, None);
    }
  }

  lemma RevokeKeeps(s: Store, id: Id, now: int)
    ensures RevokeStep(s, id, now).deals.Keys == s.deals.Keys
    ensures forall d :: d in s.deals ==>
      ServiceOf(RevokeStep(s, id, now).deals[d]) ==
        ServiceOf(s.deals[d]).(revoked := s.deals[d].revoked || (d == id && id in s.logs))
  {
    hide Record;
    if id in s.deals && id in s.logs {
      var a := Amend(s, id, s.deals[id].(revoked := true), s.logs[id], s.sequence);
      assert a.deals.Keys == s.deals.Keys;
      RecordKeeps(a, id, now, CapabilityRevoked, a.deals[id].runtimeState);
    }
  }

  /** After each insertion at most the cap of reclaimable deals remain. */
  lemma InsertionsBounded(s: Store, o: Operation, now: int)
    requires Ordered(s) && (o.Propose? || o.Register?)
    ensures |ReclaimableDeals(Next(s, o, now).0)| <= MAX_RECLAIMABLE_DEALS
  {
    PruneLeavesRoom(s, now);
    var p := PruneDeals(s, now);
    hide Record, PruneDeals, AddDeal;
    var id, n, c, address := o.dealId, o.negotiationId, o.contract, o.buyerAddress;
    if Selects(p, n, c) && n in p.negotiations && id !in p.deals {
      var q := AddDeal(p, id, n, c, address, now);
      var r1 := Record(q, id, now, ProposalTaken, if o.Propose? then None else Some(PROPOSED));
      OneMore(p, id, n, c, address, now);
      SameReclaimable(q, id, now, ProposalTaken, if o.Propose? then None else Some(PROPOSED));
      SameReclaimable(r1, id, now, ProposalAcknowledged, None);
    }
  }

  lemma OneMore(p: Store, id: Id, n: Id, c: Contract, address: Id, now: int)
    requires n in p.quotes && n in p.negotiations && id !in p.deals
    ensures |ReclaimableDeals(AddDeal(p, id, n, c, address, now))| <= |ReclaimableDeals(p)| + 1
  {
    assert ReclaimableDeals(AddDeal(p, id, n, c, address, now)) == ReclaimableDeals(p) + {id};
  }

  lemma SameReclaimable(s: Store, id: Id, now: int, kind: Kind, state: Option<State>)
    ensures ReclaimableDeals(Record(s, id, now, kind, state)) == ReclaimableDeals(s)
  {
    RecordKeeps(s, id, now, kind, state);
    hide Record;
    var r := Record(s, id, now, kind, state);
    assert forall d :: d in r.deals <==> d in r.deals.Keys;
    assert forall d :: d in s.deals <==> d in s.deals.Keys;
  }

  /**
   After each query the negotiations are bounded by the cap or by the deals that need them, and the new one is
   there.
   */
  lemma QueriesBounded(s: Store, n: Id, buyer: Id, termsHash: Option<Id>, now: int)
    requires Agree(s) && n !in s.negotiations && n !in s.quotes && n !in Referenced(s)
    ensures var r := AskStep(s, n, buyer, termsHash, now);
      && |r.negotiations| <= (if |r.deals| + 1 > MAX_OPEN_NEGOTIATIONS then |r.deals| + 1 else MAX_OPEN_NEGOTIATIONS)
      && n in r.negotiations && (n in r.quotes <==> termsHash.Some?)
      && r.deals == s.deals
  {
    OpenAgrees(s, n, buyer, termsHash, now);
    var q := Open(s, n, buyer, termsHash, now);
    NegotiationsBounded(q, n);
    EvictKeeps(q, q.negotiationOrder, Referenced(q) + {n});
  }

  /** A revoked deal that is past formation stays revoked, also when a later delivery mints a new token. */
  lemma RevocationKept(s: Store, o: Operation, now: int, d: Id)
    requires FreshIds(s, o) && d in s.deals && s.deals[d].revoked
    requires !MayGo(s.deals[d])
    ensures d in Next(s, o, now).0.deals && Next(s, o, now).0.deals[d].revoked
    ensures forall cap :: ArtifactFor(Next(s, o, now).0, d, cap) == None
  {
    NothingPaidForIsLost(s, o, now, d);
    hide Next;
  }
}
