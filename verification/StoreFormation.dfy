/** How a deal got where it stands: which acceptance its contract comes from, and which delivery its state. */
module StoreFormation {
  import opened Sorting
  import opened Agreement
  import opened Stores
  import opened StoreRuns
  import opened StoreTheorems
  import opened StoreService
  import opened StoreOutcomes

  /** How far a deal went, what was agreed for it, and the terms it was quoted. */
  datatype Standing = Standing(state: Stores.DealState, contract: Contract, termsHash: Id)

  function StandingOf(d: Deal): Standing { Standing(d.state, d.contract, d.termsHash) }

  function StandingAt(s: Store, d: Id): Option<Standing> { if d in s.deals then Some(StandingOf(s.deals[d])) else None }

  // ------------------------------------------------------------------ where one operation leaves a deal

  lemma RevokeStands(s: Store, id: Id, now: int, d: Id)
    ensures StandingAt(RevokeStep(s, id, now), d) == StandingAt(s, d)
  {
    hide Record;
    if id in s.deals && id in s.logs {
      var a := Amend(s, id, s.deals[id].(revoked := true), s.logs[id], s.sequence);
      assert a.deals.Keys == s.deals.Keys;
      RecordStands(a, id, now, CapabilityRevoked, a.deals[id].runtimeState, d);
    }
  }

  lemma RecordStands(s: Store, id: Id, now: int, kind: Kind, state: Option<State>, d: Id)
    ensures StandingAt(Record(s, id, now, kind, state), d) == StandingAt(s, d)
  {
    RecordKeeps(s, id, now, kind, state);
    hide Record;
    assert d in Record(s, id, now, kind, state).deals.Keys <==> d in s.deals.Keys;
  }

  lemma ObserveStands(s: Store, id: Id, state: Option<State>, revision: Option<int>, now: int, d: Id)
    ensures StandingAt(ObserveStep(s, id, state, revision, now).0, d) == StandingAt(s, d)
  {
    hide Record;
    if id in s.deals && id in s.logs && state.Some? {
      var r := Observed(s, id, state, revision);
      assert StandingAt(r, d) == StandingAt(s, d);
      hide Observed;
      RecordStands(r, id, now, RuntimeState, state, d);
    }
  }

  lemma PrunedStands(s: Store, now: int, d: Id)
    ensures StandingAt(PruneDeals(s, now), d) == if d in PruneDeals(s, now).deals then StandingAt(s, d) else None
  {
    DeleteAllKeeps(s, Victims(s, now));
  }

  /** An insertion keeps the deals its prune leaves, and starts a new one as proposed under the contract presented. */
  lemma InsertStands(s: Store, o: Operation, now: int, d: Id)
    requires o.Propose? || o.Register?
    ensures var after := StandingAt(Next(s, o, now).0, d);
      if d in PruneDeals(s, now).deals then after == StandingAt(s, d)
      else after == None || (d == o.dealId && after.value.state == PROPOSED_LOCAL && after.value.contract == o.contract)
  {
    var p := PruneDeals(s, now);
    PrunedStands(s, now, d);
    hide PruneDeals, Record;
    var id, n, c, address := o.dealId, o.negotiationId, o.contract, o.buyerAddress;
    if Selects(p, n, c) && n in p.negotiations && id !in p.deals {
      var q := AddDeal(p, id, n, c, address, now);
      var standing := Some(Standing(PROPOSED_LOCAL, c, p.quotes[n].termsHash));
      assert StandingAt(q, d) == if d == id then standing else StandingAt(p, d);
      hide AddDeal;
      var state := if o.Propose? then None else Some(PROPOSED);
      RecordStands(q, id, now, ProposalTaken, state, d);
      RecordStands(Record(q, id, now, ProposalTaken, state), id, now, ProposalAcknowledged, None, d);
    }
  }

  /** The operation takes the deal a step on: an acceptance or a preparation of it that went through. */
  predicate Advances(s: Store, o: Operation, now: int, d: Id) {
    (o.Accept? || o.Prepare?) && o.dealId == d && Next(s, o, now).1
  }

  /** Where a deal stands after one operation. */
  lemma NextStands(s: Store, o: Operation, now: int, d: Id)
    requires Agree(s)
    ensures var after := StandingAt(Next(s, o, now).0, d);
      if Advances(s, o, now, d)
      then
        && d in s.deals
        && after == Some(if o.Accept? then Standing(ACCEPTED_LOCAL, Proposal(s, o).value, s.deals[d].termsHash)
                         else Standing(DELIVERED_LOCAL, s.deals[d].contract, s.deals[d].termsHash))
      else if Survives(s, o, now, d) then after == StandingAt(s, d)
      else after.Some? ==> after.value.state == PROPOSED_LOCAL
  {
    hide Agree, Record, PruneDeals, AskStep, AcceptStep, ObserveStep, PrepareStep, RevokeStep, ProposeStep,
      RegisterStep;
    match o
    case Ask(n, buyer, valid, termsHash) => if valid { AskService(s, n, buyer, termsHash, now); }
    case Propose(_, _, _, _) => InsertStands(s, o, now, d);
    case Register(_, _, _, _) => InsertStands(s, o, now, d);
    case Accept(id, proposed, passes) =>
      AcceptOutcome(s, id, proposed, passes, now);
      assert d in Next(s, o, now).0.deals.Keys <==> d in s.deals.Keys;
    case Observe(id, state, revision) => ObserveStands(s, id, state, revision, now, d);
    case Interact(id) => RecordStands(s, id, now, Interaction, None, d);
    case Prepare(id, token, artifact) =>
      PrepareOutcome(s, id, token, artifact, now);
      assert d in Next(s, o, now).0.deals.Keys <==> d in s.deals.Keys;
    case Revoke(id) => RevokeStands(s, id, now, d);
  }

  // ------------------------------------------------------------------ over every run

  /** An acceptance of the deal under this contract, which passed validation and names the quoted terms. */
  predicate Adopts(s: Store, o: Operation, d: Id, c: Contract) {
    && o.Accept? && o.dealId == d && o.passes
    && d in s.deals && Proposal(s, o) == Some(c) && c.pin == Some(s.deals[d].termsHash)
  }

  ghost predicate Adopting(s: Store, o: Operation, d: Id) { exists c :: Adopts(s, o, d, c) }

  /** A preparation of the deal after it was accepted, with something to deliver. */
  predicate Delivers(s: Store, o: Operation, d: Id) {
    o.Prepare? && o.dealId == d && o.artifact.Some? && d in s.deals && s.deals[d].state != PROPOSED_LOCAL
  }

  ghost predicate AdoptedAt(ops: seq<Timed>, k: nat, d: Id, c: Contract) {
    k < |ops| && Adopts(Before(ops, k), ops[k].0, d, c)
  }

  ghost predicate DeliveredAt(ops: seq<Timed>, k: nat, d: Id) { k < |ops| && Delivers(Before(ops, k), ops[k].0, d) }

  /** The operation neither removes the deal nor accepts it anew. */
  ghost predicate Spares(s: Store, o: Operation, now: int, d: Id) { Survives(s, o, now, d) && !Adopting(s, o, d) }

  ghost predicate SparedSince(ops: seq<Timed>, k: nat, d: Id) {
    forall j :: k < j < |ops| ==> Spares(Before(ops, j), ops[j].0, ops[j].1, d)
  }

  /** Where the next operation leaves the deal, by what it does to it. */
  lemma StandsNext(s: Store, o: Operation, now: int, d: Id, c: Contract)
    requires Agree(s)
    ensures var was, after := StandingAt(s, d), StandingAt(Next(s, o, now).0, d);
      && ((after.Some? && after.value.state != PROPOSED_LOCAL && after.value.contract == c) <==>
            Adopts(s, o, d, c)
            || (was.Some? && was.value.state != PROPOSED_LOCAL && was.value.contract == c && Spares(s, o, now, d)))
      && ((after.Some? && after.value.state == DELIVERED_LOCAL) <==>
            Delivers(s, o, d) || (was.Some? && was.value.state == DELIVERED_LOCAL && Spares(s, o, now, d)))
      && (after.Some? && after.value.state != PROPOSED_LOCAL &&
          (was.Some? && was.value.state != PROPOSED_LOCAL ==> was.value.contract.pin == Some(was.value.termsHash)) ==>
            after.value.contract.pin == Some(after.value.termsHash))
  {
    NextStands(s, o, now, d);
    AdvancesIff(s, o, now, d);
    AdoptsOnly(s, o, d, c);
    hide Agree, Next, Advances, Survives, Adopting;
  }

  lemma AdvancesIff(s: Store, o: Operation, now: int, d: Id)
    requires Agree(s)
    ensures Advances(s, o, now, d) <==>
      (Proposal(s, o).Some? && Adopts(s, o, d, Proposal(s, o).value)) || Delivers(s, o, d)
  {
    if o.Accept? { AcceptOutcome(s, o.dealId, o.proposed, o.passes, now); }
    if o.Prepare? { PrepareOutcome(s, o.dealId, o.token, o.artifact, now); }
    hide Agree, Next, Touched;
  }

  lemma AdoptsOnly(s: Store, o: Operation, d: Id, c: Contract)
    ensures Adopting(s, o, d) <==> Proposal(s, o).Some? && Adopts(s, o, d, Proposal(s, o).value)
    ensures Adopts(s, o, d, c) ==> Proposal(s, o) == Some(c)
  {
  }

  /**
   Over every sequence of operations: a deal stands beyond the proposal, under contract `c`, exactly when some
   acceptance of it passed validation, named the quoted terms and adopted `c`, and since then the deal was neither
   removed nor accepted anew.
   */
  lemma {:induction false} ContractIsAdopted(ops: seq<Timed>, d: Id, c: Contract)
    requires Legal(Empty(), ops)
    ensures var s := StoreTheorems.Run(Empty(), ops);
      d in s.deals && s.deals[d].state != PROPOSED_LOCAL && s.deals[d].contract == c <==>
        exists k :: AdoptedAt(ops, k, d, c) && SparedSince(ops, k, d)
  {
    if ops != [] {
      var n := |ops| - 1;
      LegalPrefix(Empty(), ops, n);
      StoresAgree(ops[..n]);
      ContractIsAdopted(ops[..n], d, c);
      hide Agree, Histories, Legal, Next, Spares, Adopts, AdoptedAt, SparedSince;
      StandsNext(Before(ops, n), ops[n].0, ops[n].1, d, c);
      LastAdopted(ops, d, c);
    }
  }

  /** A deal counts as delivered exactly when a delivery was prepared for it and since then it was spared. */
  lemma {:induction false} DeliveredIsPrepared(ops: seq<Timed>, d: Id)
    requires Legal(Empty(), ops)
    ensures var s := StoreTheorems.Run(Empty(), ops);
      d in s.deals && s.deals[d].state == DELIVERED_LOCAL <==>
        exists k :: DeliveredAt(ops, k, d) && SparedSince(ops, k, d)
  {
    if ops != [] {
      var n := |ops| - 1;
      LegalPrefix(Empty(), ops, n);
      StoresAgree(ops[..n]);
      DeliveredIsPrepared(ops[..n], d);
      hide Agree, Histories, Legal, Next, Spares, Delivers, DeliveredAt, SparedSince;
      StandsNext(Before(ops, n), ops[n].0, ops[n].1, d, Contract(0, None, 0));
      LastDelivered(ops, d);
    }
  }

  /** A contract that was accepted names the terms the deal was quoted. */
  lemma {:induction false} AcceptedTermsArePinned(ops: seq<Timed>, d: Id)
    requires Legal(Empty(), ops)
    ensures var s := StoreTheorems.Run(Empty(), ops);
      d in s.deals && s.deals[d].state != PROPOSED_LOCAL ==> s.deals[d].contract.pin == Some(s.deals[d].termsHash)
  {
    if ops != [] {
      var n := |ops| - 1;
      LegalPrefix(Empty(), ops, n);
      StoresAgree(ops[..n]);
      AcceptedTermsArePinned(ops[..n], d);
      hide Agree, Histories, Legal, Next, Spares, Adopts, Delivers;
      StandsNext(Before(ops, n), ops[n].0, ops[n].1, d, Contract(0, None, 0));
    }
  }

  lemma PrefixSpared(ops: seq<Timed>, k: nat, d: Id)
    requires ops != [] && k < |ops| - 1
    ensures var n := |ops| - 1;
      SparedSince(ops, k, d) <==> SparedSince(ops[..n], k, d) && Spares(Before(ops, n), ops[n].0, ops[n].1, d)
  {
    hide Spares, Before;
    forall j | 0 <= j < |ops| ensures Before(ops[..|ops| - 1], j) == Before(ops, j) { PrefixBefore(ops, j); }
  }

  lemma LastAdopted(ops: seq<Timed>, d: Id, c: Contract)
    requires ops != []
    ensures var n := |ops| - 1;
      (exists k :: AdoptedAt(ops, k, d, c) && SparedSince(ops, k, d)) <==>
        Adopts(Before(ops, n), ops[n].0, d, c)
        || ((exists k :: AdoptedAt(ops[..n], k, d, c) && SparedSince(ops[..n], k, d))
            && Spares(Before(ops, n), ops[n].0, ops[n].1, d))
  {
    hide Adopts, Spares, Before;
    var n := |ops| - 1;
    assert SparedSince(ops, n, d);
    assert AdoptedAt(ops, n, d, c) <==> Adopts(Before(ops, n), ops[n].0, d, c);
    forall k | 0 <= k < n
      ensures AdoptedAt(ops[..n], k, d, c) <==> AdoptedAt(ops, k, d, c)
      ensures SparedSince(ops, k, d) <==>
        SparedSince(ops[..n], k, d) && Spares(Before(ops, n), ops[n].0, ops[n].1, d)
    {
      PrefixBefore(ops, k);
      PrefixSpared(ops, k, d);
    }
    hide SparedSince;
  }

  lemma LastDelivered(ops: seq<Timed>, d: Id)
    requires ops != []
    ensures var n := |ops| - 1;
      (exists k :: DeliveredAt(ops, k, d) && SparedSince(ops, k, d)) <==>
        Delivers(Before(ops, n), ops[n].0, d)
        || ((exists k :: DeliveredAt(ops[..n], k, d) && SparedSince(ops[..n], k, d))
            && Spares(Before(ops, n), ops[n].0, ops[n].1, d))
  {
    hide Delivers, Spares, Before;
    var n := |ops| - 1;
    assert SparedSince(ops, n, d);
    assert DeliveredAt(ops, n, d) <==> Delivers(Before(ops, n), ops[n].0, d);
    forall k | 0 <= k < n
      ensures DeliveredAt(ops[..n], k, d) <==> DeliveredAt(ops, k, d)
      ensures SparedSince(ops, k, d) <==>
        SparedSince(ops[..n], k, d) && Spares(Before(ops, n), ops[n].0, ops[n].1, d)
    {
      PrefixBefore(ops, k);
      PrefixSpared(ops, k, d);
    }
    hide SparedSince;
  }
}
