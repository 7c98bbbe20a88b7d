/** What the stores serve: exactly what was prepared last for a deal still there, unless it was revoked. */
module StoreService {
  import opened Sorting
  import opened Agreement
  import opened Stores
  import opened StoreRuns
  import opened StoreTheorems

  function ServiceAt(s: Store, d: Id): Option<Service> { if d in s.deals then Some(ServiceOf(s.deals[d])) else None }

  // ------------------------------------------------------------------ one operation

  /** The deals an operation's own prune leaves. */
  ghost predicate Survives(s: Store, o: Operation, now: int, d: Id) {
    o.Propose? || o.Register? ==> d in PruneDeals(s, now).deals
  }

  /** The operation touches this deal's downloads. */
  predicate Serves(s: Store, o: Operation, now: int, d: Id) {
    (o.Prepare? && o.dealId == d && Next(s, o, now).1) || (o.Revoke? && o.dealId == d)
  }

  lemma PrunedService(s: Store, now: int, d: Id)
    ensures ServiceAt(PruneDeals(s, now), d) == if d in PruneDeals(s, now).deals then ServiceAt(s, d) else None
  {
    DeleteAllKeeps(s, Victims(s, now));
  }

  lemma RecordService(s: Store, id: Id, now: int, kind: Kind, state: Option<State>, d: Id)
    ensures ServiceAt(Record(s, id, now, kind, state), d) == ServiceAt(s, d)
  {
    RecordKeeps(s, id, now, kind, state);
    hide Record;
    assert d in Record(s, id, now, kind, state).deals.Keys <==> d in s.deals.Keys;
  }

  /** A deal that was not there starts with nothing to serve. */
  lemma AddedService(s: Store, id: Id, n: Id, c: Contract, address: Id, now: int, d: Id)
    requires n in s.quotes && n in s.negotiations
    ensures ServiceAt(AddDeal(s, id, n, c, address, now), d) ==
      if d == id then Some(Service(None, None, false)) else ServiceAt(s, d)
  {
  }

  lemma InsertedService(s: Store, o: Operation, now: int, d: Id)
    requires o.Propose? || o.Register?
    ensures var after := ServiceAt(Next(s, o, now).0, d);
      if d in PruneDeals(s, now).deals then after == ServiceAt(s, d)
      else after == None || (d == o.dealId && after == Some(Service(None, None, false)))
  {
    var p := PruneDeals(s, now);
    PrunedService(s, now, d);
    hide PruneDeals, Record, AddDeal;
    var id, n, c, address := o.dealId, o.negotiationId, o.contract, o.buyerAddress;
    if Selects(p, n, c) && n in p.negotiations && id !in p.deals {
      var q := AddDeal(p, id, n, c, address, now);
      var state := if o.Propose? then None else Some(PROPOSED);
      AddedService(p, id, n, c, address, now, d);
      RecordService(q, id, now, ProposalTaken, state, d);
      RecordService(Record(q, id, now, ProposalTaken, state), id, now, ProposalAcknowledged, None, d);
    }
  }

  /** Whatever does not prepare, revoke or remove a deal leaves its downloads as they are. */
  lemma ServiceKept(s: Store, o: Operation, now: int, d: Id)
    requires Survives(s, o, now, d) && !Serves(s, o, now, d)
    ensures ServiceAt(Next(s, o, now).0, d) == ServiceAt(s, d)
  {
    hide Record, PruneDeals, AskStep, AcceptStep, ObserveStep, PrepareStep, RevokeStep, ProposeStep, RegisterStep;
    match o
    case Ask(n, buyer, valid, termsHash) => if valid { AskService(s, n, buyer, termsHash, now); }
    case Propose(_, _, _, _) => InsertedService(s, o, now, d);
    case Register(_, _, _, _) => InsertedService(s, o, now, d);
    case Accept(id, proposed, passes) =>
      AcceptKeeps(s, id, proposed, passes, now);
      assert d in AcceptStep(s, id, proposed, passes, now).0.deals.Keys <==> d in s.deals.Keys;
    case Observe(id, state, revision) =>
      ObserveKeeps(s, id, state, revision, now);
      assert d in ObserveStep(s, id, state, revision, now).0.deals.Keys <==> d in s.deals.Keys;
    case Interact(id) => RecordService(s, id, now, Interaction, None, d);
    case Prepare(id, token, artifact) =>
      PrepareKeeps(s, id, token, artifact, now);
      assert d in PrepareStep(s, id, token, artifact, now).0.deals.Keys <==> d in s.deals.Keys;
    case Revoke(id) =>
      RevokeKeeps(s, id, now);
      assert d in RevokeStep(s, id, now).deals.Keys <==> d in s.deals.Keys;
  }

  lemma AskService(s: Store, n: Id, buyer: Id, termsHash: Option<Id>, now: int)
    ensures AskStep(s, n, buyer, termsHash, now).deals == s.deals
  {
    var r := Open(s, n, buyer, termsHash, now);
    EvictKeeps(r, r.negotiationOrder, Referenced(r) + {n});
  }

  /** A prepared delivery is served under its own token alone, unless access was revoked, and no prune can take it. */
  lemma PreparedIsServed(s: Store, id: Id, token: Id, artifact: Option<Id>, now: int)
    requires PrepareStep(s, id, token, artifact, now).1
    ensures var r := PrepareStep(s, id, token, artifact, now).0;
      && id in r.deals && !Reclaimable(r.deals[id])
      && forall cap :: ArtifactFor(r, id, cap) == if cap == Some(token) && !s.deals[id].revoked then artifact else None
  {
    var d := s.deals[id].(token := Some(token), artifact := artifact, state := DELIVERED_LOCAL);
    RecordKeeps(Amend(s, id, d, s.logs[id], s.sequence), id, now, DeliveryPrepared, None);
    hide Record;
  }

  /** After a revocation no token serves the deal, and revoking again changes nothing. */
  lemma RevokedServesNothing(s: Store, id: Id, now: int, later: int)
    requires id in s.deals && id in s.logs
    ensures var r := RevokeStep(s, id, now);
      (forall cap :: ArtifactFor(r, id, cap) == None) && RevokeStep(r, id, later) == r
  {
    RevokeKeeps(s, id, now);
  }

  // ------------------------------------------------------------------ over every run

  /** A token and an artifact come together. */
  ghost predicate Armed(
      s: Store) { forall d :: d in s.deals ==> (s.deals[d].token.Some? <==> s.deals[d].artifact.Some?) }

  lemma NextArmed(s: Store, o: Operation, now: int)
    requires Armed(s)
    ensures Armed(Next(s, o, now).0)
  {
    var r := Next(s, o, now).0;
    hide PruneDeals;
    forall d | d in r.deals ensures r.deals[d].token.Some? <==> r.deals[d].artifact.Some? {
      if o.Prepare? && o.dealId == d {
        PrepareKeeps(s, d, o.token, o.artifact, now);
        assert d in r.deals.Keys;
      } else if o.Revoke? && o.dealId == d {
        RevokeKeeps(s, d, now);
        assert d in r.deals.Keys;
      } else if Survives(s, o, now, d) {
        ServiceKept(s, o, now, d);
      } else {
        InsertedService(s, o, now, d);
      }
      hide Next;
    }
  }

  lemma {:induction false} RunArmed(ops: seq<Timed>)
    ensures Armed(StoreTheorems.Run(Empty(), ops))
  {
    if ops != [] {
      RunArmed(ops[..|ops| - 1]);
      NextArmed(StoreTheorems.Run(Empty(), ops[..|ops| - 1]), ops[|ops| - 1].0, ops[|ops| - 1].1);
    }
  }

  /** What the `k`-th operation found. */
  function Before(ops: seq<Timed>, k: nat): Store
    requires k <= |ops|
  {
    StoreTheorems.Run(Empty(), ops[..k])
  }

  /** The operation prepares this artifact under this token, for a deal not revoked before. */
  predicate Prepares(s: Store, o: Operation, now: int, d: Id, cap: Id, x: Id) {
    o == Prepare(d, cap, Some(x)) && Next(s, o, now).1 && d in s.deals && !s.deals[d].revoked
  }

  ghost predicate PreparedAt(ops: seq<Timed>, k: nat, d: Id, cap: Id, x: Id) {
    k < |ops| && Prepares(Before(ops, k), ops[k].0, ops[k].1, d, cap, x)
  }

  /** Nothing since has prepared, revoked or removed the deal. */
  ghost predicate UndisturbedSince(ops: seq<Timed>, k: nat, d: Id) {
    forall j :: k < j < |ops| ==>
      Survives(Before(ops, j), ops[j].0, ops[j].1, d) && !Serves(Before(ops, j), ops[j].0, ops[j].1, d)
  }

  lemma PrefixBefore(ops: seq<Timed>, k: nat)
    requires ops != [] && k < |ops|
    ensures Before(ops[..|ops| - 1], k) == Before(ops, k)
  {
    assert ops[..|ops| - 1][..k] == ops[..k];
  }

  lemma PrefixPrepared(ops: seq<Timed>, k: nat, d: Id, cap: Id, x: Id)
    requires ops != [] && k < |ops| - 1
    ensures PreparedAt(ops[..|ops| - 1], k, d, cap, x) <==> PreparedAt(ops, k, d, cap, x)
  {
    PrefixBefore(ops, k);
    hide Next;
  }

  lemma PrefixUndisturbed(ops: seq<Timed>, k: nat, d: Id)
    requires ops != [] && k < |ops| - 1
    ensures var n := |ops| - 1;
      UndisturbedSince(ops, k, d) <==>
        UndisturbedSince(ops[..n], k, d)
        && Survives(Before(ops, n), ops[n].0, ops[n].1, d) && !Serves(Before(ops, n), ops[n].0, ops[n].1, d)
  {
    hide Survives, Serves, Before;
    forall j | 0 <= j < |ops| ensures Before(ops[..|ops| - 1], j) == Before(ops, j) { PrefixBefore(ops, j); }
  }

  /** The last operation prepared the deal, or left it alone. */
  lemma ServedStep(ops: seq<Timed>, d: Id, cap: Id, x: Id)
    requires Legal(Empty(), ops) && ops != []
    ensures var n := |ops| - 1; var s := Before(ops, n);
      ServiceAt(StoreTheorems.Run(Empty(), ops), d) == Some(Service(Some(cap), Some(x), false)) <==>
        PreparedAt(ops, n, d, cap, x)
        || (ServiceAt(s, d) == Some(Service(Some(cap), Some(x), false))
            && Survives(s, ops[n].0, ops[n].1, d) && !Serves(s, ops[n].0, ops[n].1, d))
  {
    var n := |ops| - 1;
    LegalPrefix(Empty(), ops, n);
    StoresAgree(ops[..n]);
    LoggedDeals(Before(ops, n), d);
    hide Agree, Histories, PruneDeals, Legal, Next, Survives, Serves, Prepares, ServiceAt;
    ServedNext(Before(ops, n), ops[n].0, ops[n].1, d, cap, x);
  }

  lemma LoggedDeals(s: Store, d: Id)
    requires Agree(s)
    ensures d in s.logs <==> d in s.deals
  {
  }

  lemma ServedNext(s: Store, o: Operation, now: int, d: Id, cap: Id, x: Id)
    requires d in s.logs <==> d in s.deals
    ensures ServiceAt(Next(s, o, now).0, d) == Some(Service(Some(cap), Some(x), false)) <==>
      Prepares(s, o, now, d, cap, x)
      || (ServiceAt(s, d) == Some(Service(Some(cap), Some(x), false))
          && Survives(s, o, now, d) && !Serves(s, o, now, d))
  {
    hide PruneDeals, Record;
    if o.Prepare? && o.dealId == d {
      PrepareKeeps(s, d, o.token, o.artifact, now);
      assert d in Next(s, o, now).0.deals.Keys <==> d in s.deals.Keys;
    } else if o.Revoke? && o.dealId == d {
      RevokeKeeps(s, d, now);
      assert d in Next(s, o, now).0.deals.Keys <==> d in s.deals.Keys;
    } else if Survives(s, o, now, d) {
      ServiceKept(s, o, now, d);
    } else {
      InsertedService(s, o, now, d);
    }
    hide Next, Survives;
  }

  /**
   Over every sequence of operations a token opens an artifact exactly when some operation prepared just that
   artifact under just that token for an unrevoked deal, and nothing since prepared, revoked or removed the deal.
   */
  lemma {:induction false} ServedIffPrepared(ops: seq<Timed>, d: Id, cap: Id, x: Id)
    requires Legal(Empty(), ops)
    ensures ArtifactFor(StoreTheorems.Run(Empty(), ops), d, Some(cap)) == Some(x) <==>
      exists k :: PreparedAt(ops, k, d, cap, x) && UndisturbedSince(ops, k, d)
  {
    if ops == [] {
      hide UndisturbedSince;
    } else {
      hide PreparedAt, UndisturbedSince, ArtifactFor, ServiceAt, Legal, Survives, Serves;
      var n := |ops| - 1;
      LegalPrefix(Empty(), ops, n);
      ServedIffPrepared(ops[..n], d, cap, x);
      ServedByRecord(ops, d, cap, x);
      ServedByRecord(ops[..n], d, cap, x);
      ServedStep(ops, d, cap, x);
      LastOrEarlier(ops, d, cap, x);
    }
  }

  lemma ServedByRecord(ops: seq<Timed>, d: Id, cap: Id, x: Id)
    ensures var s := StoreTheorems.Run(Empty(), ops);
      ArtifactFor(s, d, Some(cap)) == Some(x) <==> ServiceAt(s, d) == Some(Service(Some(cap), Some(x), false))
  {
    hide StoreTheorems.Run;
  }

  lemma LastOrEarlier(ops: seq<Timed>, d: Id, cap: Id, x: Id)
    requires ops != []
    ensures var n := |ops| - 1;
      (exists k :: PreparedAt(ops, k, d, cap, x) && UndisturbedSince(ops, k, d)) <==>
        PreparedAt(ops, n, d, cap, x)
        || ((exists k :: PreparedAt(ops[..n], k, d, cap, x) && UndisturbedSince(ops[..n], k, d))
            && Survives(Before(ops, n), ops[n].0, ops[n].1, d) && !Serves(Before(ops, n), ops[n].0, ops[n].1, d))
  {
    var n := |ops| - 1;
    PreparedInside(ops, d, cap, x);
    PreparedInside(ops[..n], d, cap, x);
    assert UndisturbedSince(ops, n, d);
    forall k | 0 <= k < n
      ensures PreparedAt(ops[..n], k, d, cap, x) <==> PreparedAt(ops, k, d, cap, x)
      ensures UndisturbedSince(ops, k, d) <==>
        UndisturbedSince(ops[..n], k, d)
        && Survives(Before(ops, n), ops[n].0, ops[n].1, d) && !Serves(Before(ops, n), ops[n].0, ops[n].1, d)
    {
      PrefixPrepared(ops, k, d, cap, x);
      PrefixUndisturbed(ops, k, d);
    }
    hide PreparedAt, UndisturbedSince, Survives, Serves, Before;
  }

  lemma PreparedInside(ops: seq<Timed>, d: Id, cap: Id, x: Id)
    ensures forall k: nat :: PreparedAt(ops, k, d, cap, x) ==> k < |ops|
  {
  }
}
