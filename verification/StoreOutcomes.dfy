/** What a caller finds after one operation: whether it went through, what changed, and what was entered. */
module StoreOutcomes {
  import opened Sorting
  import opened Agreement
  import opened Stores
  import opened StoreRuns

  /** Alike but for what was entered in the history. */
  predicate OnlyEntered(d: Deal, d': Deal) { d' == d.(history := d'.history, updatedAt := d'.updatedAt) }

  /** Entries of these kinds, made now and numbered on from the counter, come after the ones there were. */
  ghost predicate Enters(log: Log, log': Log, now: int, counter: nat, kinds: seq<Kind>) {
    && log'.observed == log.observed
    && |log'.entries| == |log.entries| + |kinds| && log'.entries[..|log.entries|] == log.entries
    && forall i :: 0 <= i < |kinds| ==>
         var e := log'.entries[|log.entries| + i]; e.kind == kinds[i] && e.at == now && e.sequence == counter + 1 + i
  }

  /** One deal became `d`, with these entries, and nothing else moved but the counter. */
  ghost predicate Touched(s: Store, r: Store, id: Id, d: Deal, log: Log, now: int, kinds: seq<Kind>) {
    && id in r.deals && id in r.logs
    && r == s.(deals := s.deals[id := r.deals[id]], logs := s.logs[id := r.logs[id]],
               sequence := s.sequence + |kinds|)
    && OnlyEntered(d, r.deals[id]) && r.deals[id].updatedAt == (if kinds == [] then d.updatedAt else now)
    && Enters(log, r.logs[id], now, s.sequence, kinds)
  }

  lemma AmendTouches(s: Store, id: Id, d: Deal, log: Log, now: int)
    ensures Touched(s, Amend(s, id, d, log, s.sequence), id, d, log, now, [])
  {
  }

  lemma StillTouches(s: Store, id: Id, now: int)
    requires id in s.deals && id in s.logs
    ensures Touched(s, s, id, s.deals[id], s.logs[id], now, [])
  {
    assert s.deals == s.deals[id := s.deals[id]] && s.logs == s.logs[id := s.logs[id]];
  }

  /** One more entry, numbered on. */
  lemma EntersMore(log: Log, mid: Log, log': Log, now: int, counter: nat, kinds: seq<Kind>, e: Entry)
    requires Enters(log, mid, now, counter, kinds) && log' == Logged(mid, e)
    requires e.at == now && e.sequence == counter + |kinds| + 1
    ensures Enters(log, log', now, counter, kinds + [e.kind])
  {
    var n := |log.entries|;
    assert log'.entries[..n] == mid.entries[..n];
    forall i | 0 <= i < |kinds| + 1
      ensures var x := log'.entries[n + i];
        x.kind == (kinds + [e.kind])[i] && x.at == now && x.sequence == counter + 1 + i
    {
      if i < |kinds| { assert log'.entries[n + i] == mid.entries[n + i]; }
    }
  }

  lemma RecordTouches(
      s: Store, r: Store, id: Id, d: Deal, log: Log, now: int, kinds: seq<Kind>, kind: Kind, state: Option<State>)
    requires Touched(s, r, id, d, log, now, kinds)
    ensures Touched(s, Record(r, id, now, kind, state), id, d, log, now, kinds + [kind])
  {
    var q, e := Record(r, id, now, kind, state), Entry(r.sequence + 1, now, kind, state);
    hide Trim, Enters, Logged;
    EntersMore(log, r.logs[id], q.logs[id], now, s.sequence, kinds, e);
    assert q.deals == s.deals[id := q.deals[id]] && q.logs == s.logs[id := q.logs[id]];
  }

  // ------------------------------------------------------------------ acceptance and delivery

  /** The contract an acceptance is about: the one it brings, or the deal's own. */
  function Proposal(s: Store, o: Operation): Option<Contract> {
    if !o.Accept? || o.dealId !in s.deals then None
    else if o.proposed.Some? then o.proposed
    else Some(s.deals[o.dealId].contract)
  }

  /**
   An acceptance goes through exactly for a known deal and a contract that passed validation and names the quoted
   terms. A refused one is entered as refused and leaves the deal as it was.
   */
  lemma AcceptOutcome(s: Store, id: Id, proposed: Option<Contract>, passes: bool, now: int)
    requires Agree(s)
    ensures var (r, ok) := Next(s, Accept(id, proposed, passes), now);
      var proposal := Proposal(s, Accept(id, proposed, passes));
      && (ok <==> id in s.deals && passes && proposal.value.pin == Some(s.deals[id].termsHash))
      && (id !in s.deals ==> r == s)
      && (ok ==> Touched(s, r, id, s.deals[id].(contract := proposal.value, state := ACCEPTED_LOCAL), s.logs[id], now,
                         [AcceptanceRequested, AcceptanceResult]))
      && (id in s.deals && !ok ==>
            Touched(s, r, id, s.deals[id], s.logs[id], now, [AcceptanceRequested, AcceptanceRefused]))
  {
    hide Agree;
    if id in s.deals {
      var proposal := if proposed.Some? then proposed.value else s.deals[id].contract;
      AcceptIs(s, id, proposed, passes, now);
      AcceptEntered(s, id, proposal, now);
      assert Proposal(s, Accept(id, proposed, passes)) == Some(proposal);
      hide *;
    }
  }

  /** Requested first, then answered. */
  lemma AcceptEntered(s: Store, id: Id, proposal: Contract, now: int)
    requires id in s.deals && id in s.logs
    ensures var d, log, shown := s.deals[id], s.logs[id], s.deals[id].runtimeState;
      var r := Record(s, id, now, AcceptanceRequested, shown);
      && id in r.deals && id in r.logs
      && Touched(s, Record(r, id, now, AcceptanceRefused, shown), id, d, log, now,
                 [AcceptanceRequested, AcceptanceRefused])
      && Touched(s, Adopt(r, id, proposal, now), id, d.(contract := proposal, state := ACCEPTED_LOCAL), log, now,
                 [AcceptanceRequested, AcceptanceResult])
  {
    var d, log, shown := s.deals[id], s.logs[id], s.deals[id].runtimeState;
    var r := Record(s, id, now, AcceptanceRequested, shown);
    StillTouches(s, id, now);
    RecordTouches(s, s, id, d, log, now, [], AcceptanceRequested, shown);
    assert [] + [AcceptanceRequested] == [AcceptanceRequested];
    assert id in r.deals && id in r.logs;
    hide Touched, Record, Adopt;
    RecordTouches(s, r, id, d, log, now, [AcceptanceRequested], AcceptanceRefused, shown);
    AdoptTouches(s, r, id, d, log, now, [AcceptanceRequested], proposal);
    assert [AcceptanceRequested] + [AcceptanceRefused] == [AcceptanceRequested, AcceptanceRefused];
    assert [AcceptanceRequested] + [AcceptanceResult] == [AcceptanceRequested, AcceptanceResult];
  }

  lemma AcceptIs(s: Store, id: Id, proposed: Option<Contract>, passes: bool, now: int)
    requires Agree(s) && id in s.deals
    ensures id in s.logs
    ensures var shown := s.deals[id].runtimeState;
      var proposal := if proposed.Some? then proposed.value else s.deals[id].contract;
      var r := Record(s, id, now, AcceptanceRequested, shown);
      && id in r.deals && id in r.logs
      && Next(s, Accept(id, proposed, passes), now) ==
           if passes && proposal.pin == Some(s.deals[id].termsHash) then (Adopt(r, id, proposal, now), true)
           else (Record(r, id, now, AcceptanceRefused, shown), false)
  {
    QuoteOf(s, id);
    var r := Record(s, id, now, AcceptanceRequested, s.deals[id].runtimeState);
    RecordKeeps(s, id, now, AcceptanceRequested, s.deals[id].runtimeState);
    assert id in r.deals.Keys && id in r.logs.Keys;
    hide Agree, Record, Adopt;
  }

  lemma QuoteOf(s: Store, id: Id)
    requires Agree(s) && id in s.deals
    ensures id in s.logs && s.deals[id].negotiationId in s.quotes
    ensures s.quotes[s.deals[id].negotiationId].termsHash == s.deals[id].termsHash
  {
  }

  lemma AdoptTouches(
      s: Store, r: Store, id: Id, d: Deal, log: Log, now: int, kinds: seq<Kind>, proposal: Contract)
    requires Touched(s, r, id, d, log, now, kinds)
    ensures Touched(s, Adopt(r, id, proposal, now), id, d.(contract := proposal, state := ACCEPTED_LOCAL), log, now,
      kinds + [AcceptanceResult])
  {
    var d' := d.(contract := proposal, state := ACCEPTED_LOCAL);
    var a := Amend(r, id, r.deals[id].(contract := proposal, state := ACCEPTED_LOCAL), r.logs[id], r.sequence);
    assert a.deals == s.deals[id := a.deals[id]] && a.logs == s.logs[id := a.logs[id]];
    assert Touched(s, a, id, d', log, now, kinds);
    hide Touched, Record;
    RecordTouches(s, a, id, d', log, now, kinds, AcceptanceResult, None);
  }

  /** A delivery is prepared exactly for a known deal that was accepted, once there is something to deliver. */
  lemma PrepareOutcome(s: Store, id: Id, token: Id, artifact: Option<Id>, now: int)
    requires Agree(s)
    ensures var (r, ok) := Next(s, Prepare(id, token, artifact), now);
      && (ok <==> id in s.deals && s.deals[id].state != PROPOSED_LOCAL && artifact.Some?)
      && (!ok ==> r == s)
      && (ok ==> Touched(s, r, id,
            s.deals[id].(token := Some(token), artifact := artifact, state := DELIVERED_LOCAL), s.logs[id], now,
            [DeliveryPrepared]))
  {
    if id in s.deals {
      QuoteOf(s, id);
      var d := s.deals[id].(token := Some(token), artifact := artifact, state := DELIVERED_LOCAL);
      AmendTouches(s, id, d, s.logs[id], now);
      var a := Amend(s, id, d, s.logs[id], s.sequence);
      RecordTouches(s, a, id, d, s.logs[id], now, [], DeliveryPrepared, None);
      assert [] + [DeliveryPrepared] == [DeliveryPrepared];
      hide Agree, Record, Amend, Touched;
    }
  }

  /** Revoking a known deal once is entered once; anything else changes nothing. */
  lemma RevokeOutcome(s: Store, id: Id, now: int)
    requires Agree(s)
    ensures var r := Next(s, Revoke(id), now).0;
      if id in s.deals && !s.deals[id].revoked
      then Touched(s, r, id, s.deals[id].(revoked := true), s.logs[id], now, [CapabilityRevoked])
      else r == s
  {
    if id in s.deals {
      QuoteOf(s, id);
      var d := s.deals[id].(revoked := true);
      AmendTouches(s, id, d, s.logs[id], now);
      var a := Amend(s, id, d, s.logs[id], s.sequence);
      RecordTouches(s, a, id, d, s.logs[id], now, [], CapabilityRevoked, d.runtimeState);
      assert [] + [CapabilityRevoked] == [CapabilityRevoked];
      hide Agree, Record, Amend, Touched;
    }
  }

  /** The latest reading is noted on a known deal; only a change of state is entered. */
  lemma ObserveOutcome(s: Store, id: Id, state: Option<State>, revision: Option<int>, now: int)
    requires Agree(s)
    ensures var (r, ok) := Next(s, Operation.Observe(id, state, revision), now);
      && (ok <==> id in s.deals)
      && if id in s.deals && state.Some?
         then
           var d := s.deals[id];
           Touched(s, r, id,
             d.(runtimeState := state, runtimeRevision := if revision.Some? then revision else d.runtimeRevision),
             s.logs[id].(observed := s.logs[id].observed + [state.value]), now,
             if d.runtimeState != state then [RuntimeState] else [])
         else r == s
  {
    if id in s.deals && state.Some? {
      QuoteOf(s, id);
      var d := s.deals[id];
      var d' := d.(runtimeState := state, runtimeRevision := if revision.Some? then revision else d.runtimeRevision);
      var log := s.logs[id].(observed := s.logs[id].observed + [state.value]);
      AmendTouches(s, id, d', log, now);
      var a := Amend(s, id, d', log, s.sequence);
      RecordTouches(s, a, id, d', log, now, [], RuntimeState, state);
      assert [] + [RuntimeState] == [RuntimeState];
      assert a == Observed(s, id, state, revision);
      hide Agree, Record, Amend, Touched, Observed;
    } else {
      OrderedLogs(s);
      hide Agree;
    }
  }

  lemma OrderedLogs(s: Store)
    requires Agree(s)
    ensures forall d :: d in s.logs <==> d in s.deals
  {
  }

  /** Any other exchange is entered, and changes nothing else. */
  lemma InteractOutcome(s: Store, id: Id, now: int)
    requires Agree(s)
    ensures var (r, ok) := Next(s, Interact(id), now);
      && (ok <==> id in s.deals)
      && if ok then Touched(s, r, id, s.deals[id], s.logs[id], now, [Interaction]) else r == s
  {
    OrderedLogs(s);
    hide Agree;
    if id in s.deals {
      StillTouches(s, id, now);
      RecordTouches(s, s, id, s.deals[id], s.logs[id], now, [], Interaction, None);
      assert [] + [Interaction] == [Interaction];
      hide Record, Touched;
    }
  }

  // ------------------------------------------------------------------ formation

  /** A deal just opened under a quote. */
  predicate Opened(s: Store, d: Deal, n: Id, c: Contract, address: Id)
    requires n in s.quotes
  {
    && d.negotiationId == n && d.contract == c && d.buyerAddress == address && d.termsHash == s.quotes[n].termsHash
    && d.state == PROPOSED_LOCAL && d.runtimeState.None? && d.runtimeRevision.None?
    && d.token.None? && d.artifact.None? && !d.revoked
  }

  /** The deal comes under its negotiation, its history continuing the quote's exchange; all others stay. */
  ghost predicate Inserts(s: Store, r: Store, id: Id, n: Id, c: Contract, address: Id, now: int, kinds: seq<Kind>) {
    && n in s.quotes && n in s.negotiations && id !in s.deals && id in r.deals && id in r.logs && n in r.negotiations
    && Opened(s, r.deals[id], n, c, address) && r.deals[id].updatedAt == now
    && Enters(Log(s.quotes[n].history, []), r.logs[id], now, s.sequence, kinds)
    && r.deals == s.deals[id := r.deals[id]] && r.logs == s.logs[id := r.logs[id]]
    && r.dealOrder == s.dealOrder + [id] && r.sequence == s.sequence + |kinds|
    && r.quotes == s.quotes && r.negotiationOrder == s.negotiationOrder
    && r.negotiations == s.negotiations[n := r.negotiations[n]]
    && r.negotiations[n] == s.negotiations[n].(
         state := AGREEMENT_STARTED, dealIds := s.negotiations[n].dealIds + [id])
  }

  lemma AddInserts(s: Store, id: Id, n: Id, c: Contract, address: Id, now: int)
    requires n in s.quotes && n in s.negotiations && id !in s.deals && id !in s.negotiations[n].dealIds
    ensures Inserts(s, AddDeal(s, id, n, c, address, now), id, n, c, address, now, [])
  {
  }

  lemma RecordInserts(
      s: Store, r: Store, id: Id, n: Id, c: Contract, address: Id, now: int, kinds: seq<Kind>, kind: Kind,
      state: Option<State>)
    requires Inserts(s, r, id, n, c, address, now, kinds)
    ensures Inserts(s, Record(r, id, now, kind, state), id, n, c, address, now, kinds + [kind])
  {
    var q, e := Record(r, id, now, kind, state), Entry(r.sequence + 1, now, kind, state);
    hide Trim, Enters, Logged;
    EntersMore(Log(s.quotes[n].history, []), r.logs[id], q.logs[id], now, s.sequence, kinds, e);
    assert q.deals == s.deals[id := q.deals[id]] && q.logs == s.logs[id := q.logs[id]];
  }

  lemma PrunedQuotes(s: Store, now: int)
    ensures PruneDeals(s, now).quotes == s.quotes
  {
    DeleteAllKeeps(s, Victims(s, now));
  }

  /**
   A proposal opens a deal exactly when its contract names the terms and the buyer of a live quote, after a prune;
   otherwise only the prune happens.
   */
  lemma ProposeOutcome(s: Store, id: Id, n: Id, c: Contract, address: Id, now: int)
    requires Agree(s) && id !in s.deals
    ensures var p, (r, ok) := PruneDeals(s, now), Next(s, Propose(id, n, c, address), now);
      && (ok <==> n in s.quotes && c.pin == Some(s.quotes[n].termsHash) && c.buyer == s.quotes[n].buyer)
      && if ok then Inserts(p, r, id, n, c, address, now, [ProposalTaken, ProposalAcknowledged]) else r == p
  {
    var p := PruneDeals(s, now);
    PruneAgrees(s, now);
    PrunedQuotes(s, now);
    assert id !in p.deals by { DeleteAllKeeps(s, Victims(s, now)); }
    InsertFacts(p, id, n);
    ProposeIs(s, id, n, c, address, now);
    hide Agree, PruneDeals, Next, Record, AddDeal, Inserts;
    if Selects(p, n, c) { ProposalInserts(p, id, n, c, address, now); }
  }

  lemma ProposalInserts(p: Store, id: Id, n: Id, c: Contract, address: Id, now: int)
    requires n in p.quotes && n in p.negotiations && id !in p.deals && id !in p.negotiations[n].dealIds
    ensures var q := AddDeal(p, id, n, c, address, now);
      Inserts(p, Record(Record(q, id, now, ProposalTaken, None), id, now, ProposalAcknowledged, None), id, n, c,
        address, now, [ProposalTaken, ProposalAcknowledged])
  {
    hide *;
    AddInserts(p, id, n, c, address, now);
    var q := AddDeal(p, id, n, c, address, now);
    RecordInserts(p, q, id, n, c, address, now, [], ProposalTaken, None);
    assert [] + [ProposalTaken] == [ProposalTaken];
    var r := Record(q, id, now, ProposalTaken, None);
    RecordInserts(p, r, id, n, c, address, now, [ProposalTaken], ProposalAcknowledged, None);
    assert [ProposalTaken] + [ProposalAcknowledged] == [ProposalTaken, ProposalAcknowledged];
  }

  lemma ProposeIs(s: Store, id: Id, n: Id, c: Contract, address: Id, now: int)
    requires var p := PruneDeals(s, now); id !in p.deals && (n in p.quotes ==> n in p.negotiations)
    ensures var p := PruneDeals(s, now);
      Next(s, Propose(id, n, c, address), now) ==
        if !Selects(p, n, c) then (p, false)
        else
          var q := AddDeal(p, id, n, c, address, now);
          (Record(Record(q, id, now, ProposalTaken, None), id, now, ProposalAcknowledged, None), true)
  {
    hide PruneDeals, Record, AddDeal;
  }

  lemma InsertFacts(p: Store, id: Id, n: Id)
    requires Agree(p)
    ensures n in p.quotes ==> n in p.negotiations
    ensures id !in p.deals && n in p.negotiations ==> id !in p.negotiations[n].dealIds
  {
    if n in p.negotiations { assert NegotiationTells(p, n); }
  }

  /**
   A live registration goes through exactly when the contract names the terms and the buyer of a live quote and a
   deal already there is the same one: its negotiation and its buyer's address. Then nothing but the prune happens
   for a deal that was there, and a new one is opened.
   */
  lemma RegisterOutcome(s: Store, id: Id, n: Id, c: Contract, address: Id, now: int)
    requires Agree(s)
    ensures var p, (r, ok) := PruneDeals(s, now), Next(s, Register(id, n, c, address), now);
      && (ok <==>
            && n in s.quotes && c.pin == Some(s.quotes[n].termsHash) && c.buyer == s.quotes[n].buyer
            && (id in p.deals ==> p.deals[id].negotiationId == n && p.deals[id].buyerAddress == address))
      && if ok && id !in p.deals then Inserts(p, r, id, n, c, address, now, [ProposalTaken]) else r == p
  {
    var p := PruneDeals(s, now);
    PruneAgrees(s, now);
    PrunedQuotes(s, now);
    hide PruneDeals;
    InsertFacts(p, id, n);
    if id in p.deals { QuoteOf(p, id); }
    hide Agree, Record, AddDeal;
    if Selects(p, n, c) && id !in p.deals {
      AddInserts(p, id, n, c, address, now);
      var q := AddDeal(p, id, n, c, address, now);
      RecordInserts(p, q, id, n, c, address, now, [], ProposalTaken, Some(PROPOSED));
      assert [] + [ProposalTaken] == [ProposalTaken];
    }
    hide Inserts;
  }

  /**
   A query by a valid buyer opens a negotiation with both its entries, quoted exactly when it was priced. Deals stay;
   other negotiations stay as they are or are evicted.
   */
  lemma AskOutcome(s: Store, n: Id, buyer: Id, valid: bool, termsHash: Option<Id>, now: int)
    requires Agree(s) && FreshIds(s, Ask(n, buyer, valid, termsHash))
    ensures var (r, ok) := Next(s, Ask(n, buyer, valid, termsHash), now);
      && (ok <==> valid) && (!ok ==> r == s)
      && (ok ==>
            && n in r.negotiations && r.negotiations[n].buyer == buyer && r.negotiations[n].dealIds == []
            && r.negotiations[n].state == (if termsHash.Some? then QUOTED else REFUSED)
            && Enters(Log([], []), Log(r.negotiations[n].history, []), now, s.sequence, [QueryAsked, QuoteAnswered])
            && (if termsHash.Some?
                then n in r.quotes && r.quotes[n] == Quote(buyer, termsHash.value, r.negotiations[n].history)
                else n !in r.quotes)
            && r.deals == s.deals && r.logs == s.logs && r.dealOrder == s.dealOrder && r.sequence == s.sequence + 2
            && (forall m :: m in r.negotiations && m != n ==>
                  m in s.negotiations && r.negotiations[m] == s.negotiations[m])
            && (forall m :: m in r.quotes && m != n ==> m in s.quotes && r.quotes[m] == s.quotes[m]))
  {
    hide Agree, Evict, Referenced;
    var r := Open(s, n, buyer, termsHash, now);
    EvictKeeps(r, r.negotiationOrder, Referenced(r) + {n});
  }
}
