/** What every run of operations keeps: the stores agree, prunes are safe and bounded, histories are exact tails. */
module StoreRuns {
  import opened Sorting
  import opened Agreement
  import opened Stores

  // ------------------------------------------------------------------ one deletion

  lemma DeleteDealAgrees(s: Store, id: Id)
    requires Agree(s)
    ensures Agree(DeleteDeal(s, id))
  {
    if id in s.deals {
      hide DeleteDeal;
      DeleteDealOrdered(s, id);
      DeleteDealRests(s, id);
      DeleteDealTells(s, id);
      DeleteDealQuotes(s, id);
    }
  }

  lemma DeleteDealOrdered(s: Store, id: Id)
    requires Ordered(s) && id in s.deals
    ensures Ordered(DeleteDeal(s, id))
  {
    RemoveDistinct(s.dealOrder, id);
    hide Distinct, Unlink;
  }

  lemma DeleteDealRests(s: Store, id: Id)
    requires DealsRest(s) && NegotiationsTell(s) && id in s.deals
    ensures DealsRest(DeleteDeal(s, id))
  {
    hide Distinct;
  }

  lemma DeleteDealTells(s: Store, id: Id)
    requires DealsRest(s) && NegotiationsTell(s) && id in s.deals
    ensures NegotiationsTell(DeleteDeal(s, id))
  {
    var r := DeleteDeal(s, id);
    var n := s.deals[id].negotiationId;
    RemoveDistinct(s.negotiations[n].dealIds, id);
    hide Distinct;
    forall m | m in r.negotiations ensures NegotiationTells(r, m) { assert NegotiationTells(s, m); }
  }

  lemma DeleteDealQuotes(s: Store, id: Id)
    requires QuotesBelong(s) && id in s.deals
    ensures QuotesBelong(DeleteDeal(s, id))
  {
  }

  lemma DeleteDealBuyers(s: Store, id: Id)
    requires BuyersAgree(s)
    ensures BuyersAgree(DeleteDeal(s, id))
  {
  }

  lemma {:induction false} DeleteAllAgrees(s: Store, ids: seq<Id>)
    requires Agree(s)
    ensures Agree(DeleteAll(s, ids))
    ensures BuyersAgree(s) ==> BuyersAgree(DeleteAll(s, ids))
  {
    hide Agree, BuyersAgree, DeleteDeal;
    if ids != [] {
      DeleteAllAgrees(s, ids[..|ids| - 1]);
      var r := DeleteAll(s, ids[..|ids| - 1]);
      DeleteDealAgrees(r, ids[|ids| - 1]);
      if BuyersAgree(r) { DeleteDealBuyers(r, ids[|ids| - 1]); }
    }
  }

  /** Deleting takes out exactly the deals named; the others, the quotes and the counter stay as they were. */
  lemma {:induction false} DeleteAllKeeps(s: Store, ids: seq<Id>)
    ensures var r := DeleteAll(s, ids);
      && r.quotes == s.quotes && r.sequence == s.sequence && r.negotiationOrder == s.negotiationOrder
      && (forall n :: n in r.negotiations <==> n in s.negotiations)
      && (forall d :: d in r.deals <==> d in s.deals && d !in ids)
      && (forall d :: d in r.deals ==> r.deals[d] == s.deals[d])
      && (forall d :: d in r.logs ==> d in s.logs && r.logs[d] == s.logs[d])
      && (forall n :: n in r.negotiations ==>
            r.negotiations[n].buyer == s.negotiations[n].buyer &&
              r.negotiations[n].history == s.negotiations[n].history)
  {
    if ids != [] {
      DeleteAllKeeps(s, ids[..|ids| - 1]);
      assert ids == ids[..|ids| - 1] + [ids[|ids| - 1]];
    }
  }

  // ------------------------------------------------------------------ what a prune removes

  /** A deal not delivered here, and last seen unfunded on its Runtime if seen there at all. */
  predicate MayGo(d: Deal) {
    && d.state != DELIVERED_LOCAL
    && d.runtimeState != Some(COMMITTED) && d.runtimeState != Some(FULFILLING) && d.runtimeState != Some(DELIVERED)
    && d.runtimeState != Some(REJECTED) && d.runtimeState != Some(DISPUTED) && d.runtimeState != Some(ACCEPTED)
    && d.runtimeState != Some(RESOLVED) && d.runtimeState != Some(DEFAULTED)
  }

  lemma WhatMayGo(d: Deal)
    ensures MayGo(d) <==> Reclaimable(d)
  {
    if d.runtimeState.Some? {
      match d.runtimeState.value
      case PROPOSED => case COMMITTED => case FULFILLING => case DELIVERED => case REJECTED => case DISPUTED =>
      case ACCEPTED => case RESOLVED => case CANCELLED => case DEFAULTED => case EXPIRED =>
    }
  }

  /** A prune removes only reclaimable deals: nothing delivered, nothing its Runtime was last seen past formation in. */
  lemma PruneSafe(s: Store, now: int, d: Id)
    requires d in s.deals && d !in PruneDeals(s, now).deals
    ensures MayGo(s.deals[d])
  {
    DeleteAllKeeps(s, Victims(s, now));
    assert d in Victims(s, now);
  }

  function ReclaimableDeals(s: Store): set<Id> { set d | d in s.deals && Reclaimable(s.deals[d]) }

  /** A prune leaves room for one more reclaimable deal. */
  lemma PruneLeavesRoom(s: Store, now: int)
    requires Ordered(s)
    ensures |ReclaimableDeals(PruneDeals(s, now))| <= MAX_RECLAIMABLE_DEALS - 1
  {
    DeleteAllKeeps(s, Victims(s, now));
    var young := Fresh(s, now, s.dealOrder);
    var kept := young[Excess(|young|)..];
    assert young == young[..Excess(|young|)] + kept;
    forall d | d in ReclaimableDeals(PruneDeals(s, now)) ensures d in kept {
      assert d in s.deals && d !in Victims(s, now) && PruneDeals(s, now).deals[d] == s.deals[d];
      assert d in s.dealOrder;
      assert d !in Stale(s, now, s.dealOrder);
      assert d in young;
    }
    SetOfSeq(kept, ReclaimableDeals(PruneDeals(s, now)));
  }

  /** The unexpired reclaimable deals stand in insertion order. */
  lemma {:induction false} FreshInOrder(s: Store, now: int, order: seq<Id>, i: nat, j: nat) returns (p: nat, q: nat)
    requires i < j < |Fresh(s, now, order)|
    ensures p < q < |order| && order[p] == Fresh(s, now, order)[i] && order[q] == Fresh(s, now, order)[j]
  {
    var k := |order| - 1;
    var before := Fresh(s, now, order[..k]);
    if j < |before| {
      p, q := FreshInOrder(s, now, order[..k], i, j);
    } else {
      q := k;
      assert before[i] in order[..k];
      p :| 0 <= p < k && order[p] == before[i];
    }
  }

  lemma {:induction false} FreshDistinct(s: Store, now: int, order: seq<Id>)
    requires Distinct(order)
    ensures Distinct(Fresh(s, now, order))
  {
    if order != [] {
      var k := |order| - 1;
      FreshDistinct(s, now, order[..k]);
      assert order[k] !in order[..k];
    }
  }

  /**
   What is reclaimed, exactly: of the deals undelivered and not seen past formation, those untouched for more than
   15 minutes go; of the others the youngest 1023 stay, and the rest, inserted before them, go.
   */
  lemma PruneEvictsOldest(s: Store, now: int)
    requires Ordered(s)
    ensures var young := Fresh(s, now, s.dealOrder);
      && (forall d :: d in s.deals && MayGo(s.deals[d]) && now - s.deals[d].updatedAt > 900_000 ==>
        d !in PruneDeals(s, now).deals)
      && (forall d :: d in young <==> d in s.deals && MayGo(s.deals[d]) && now - s.deals[d].updatedAt <= 900_000)
      && (forall i :: 0 <= i < |young| ==> (young[i] in PruneDeals(s, now).deals <==> |young| - i <= 1023))
      && (forall d :: d in s.deals && !MayGo(s.deals[d]) ==> d in PruneDeals(s, now).deals)
  {
    forall d | d in s.deals ensures MayGo(s.deals[d]) <==> Reclaimable(s.deals[d]) { WhatMayGo(s.deals[d]); }
    DeleteAllKeeps(s, Victims(s, now));
    FreshDistinct(s, now, s.dealOrder);
    hide MayGo, Reclaimable, DeleteAll;
    var young := Fresh(s, now, s.dealOrder);
    forall i | 0 <= i < |young| ensures young[i] in PruneDeals(s, now).deals <==> |young| - i <= 1023 {
      assert young[i] in young;
      assert young[i] !in Stale(s, now, s.dealOrder);
      assert young[i] in young[..Excess(|young|)] <==> i < Excess(|young|);
    }
    forall d | d in s.deals && Reclaimable(s.deals[d]) &&
      Expired(s.deals[d], now) ensures d !in PruneDeals(s, now).deals {
      assert d in Stale(s, now, s.dealOrder);
    }
  }

  // ------------------------------------------------------------------ evicting negotiations

  lemma DropAgrees(s: Store, n: Id)
    requires Agree(s) && n !in Referenced(s)
    ensures Agree(DropNegotiation(s, n)) && Referenced(DropNegotiation(s, n)) == Referenced(s)
  {
    hide DropNegotiation;
    DropOrdered(s, n);
    DropRests(s, n);
    DropTells(s, n);
    DropQuotes(s, n);
  }

  lemma DropOrdered(s: Store, n: Id)
    requires Ordered(s)
    ensures Ordered(DropNegotiation(s, n)) && Referenced(DropNegotiation(s, n)) == Referenced(s)
  {
    RemoveDistinct(s.negotiationOrder, n);
    hide Distinct;
  }

  lemma DropRests(s: Store, n: Id)
    requires DealsRest(s) && n !in Referenced(s)
    ensures DealsRest(DropNegotiation(s, n))
  {
    forall d | d in s.deals ensures s.deals[d].negotiationId != n { assert s.deals[d].negotiationId in Referenced(s); }
  }

  lemma DropTells(s: Store, n: Id)
    requires NegotiationsTell(s)
    ensures NegotiationsTell(DropNegotiation(s, n))
  {
    hide Distinct;
    var r := DropNegotiation(s, n);
    forall m | m in r.negotiations ensures NegotiationTells(r, m) { assert NegotiationTells(s, m); }
  }

  lemma DropQuotes(s: Store, n: Id)
    requires QuotesBelong(s)
    ensures QuotesBelong(DropNegotiation(s, n))
  {
  }

  lemma {:induction false} EvictAgrees(s: Store, keys: seq<Id>, keep: set<Id>)
    requires Agree(s) && Referenced(s) <= keep
    ensures Agree(Evict(s, keys, keep))
    ensures BuyersAgree(s) ==> BuyersAgree(Evict(s, keys, keep))
    decreases |keys|
  {
    if keys != [] && |s.negotiations| > MAX_OPEN_NEGOTIATIONS {
      if keys[0] in keep {
        EvictAgrees(s, keys[1..], keep);
      } else {
        DropAgrees(s, keys[0]);
        assert BuyersAgree(s) ==> BuyersAgree(DropNegotiation(s, keys[0]));
        EvictAgrees(DropNegotiation(s, keys[0]), keys[1..], keep);
      }
    }
  }

  lemma {:induction false} EvictKeeps(s: Store, keys: seq<Id>, keep: set<Id>)
    ensures var r := Evict(s, keys, keep);
      && r.deals == s.deals && r.dealOrder == s.dealOrder && r.sequence == s.sequence && r.logs == s.logs
      && (forall n :: n in r.negotiations ==> n in s.negotiations && r.negotiations[n] == s.negotiations[n])
      && (forall n :: n in r.quotes ==> n in s.quotes && r.quotes[n] == s.quotes[n])
      && (forall n :: n in keep && n in s.negotiations ==> n in r.negotiations)
      && (forall n :: n in keep && n in s.quotes ==> n in r.quotes)
    decreases |keys|
  {
    if keys != [] && |s.negotiations| > MAX_OPEN_NEGOTIATIONS {
      EvictKeeps(if keys[0] in keep then s else DropNegotiation(s, keys[0]), keys[1..], keep);
    }
  }

  /** Either the cap is met or everything that may go has gone. */
  lemma {:induction false} EvictBound(s: Store, keys: seq<Id>, keep: set<Id>)
    ensures var r := Evict(s, keys, keep);
      |r.negotiations| <= MAX_OPEN_NEGOTIATIONS || forall n :: n in keys && n in r.negotiations ==> n in keep
    decreases |keys|
  {
    if keys != [] && |s.negotiations| > MAX_OPEN_NEGOTIATIONS {
      var t := if keys[0] in keep then s else DropNegotiation(s, keys[0]);
      EvictBound(t, keys[1..], keep);
      EvictKeeps(t, keys[1..], keep);
      assert keys == [keys[0]] + keys[1..];
    }
  }

  lemma {:induction false} ImageSize(ds: set<Id>, deals: map<Id, Deal>)
    requires forall d :: d in ds ==> d in deals
    ensures |set d | d in ds :: deals[d].negotiationId| <= |ds|
  {
    var a := set d | d in ds :: deals[d].negotiationId;
    if ds != {} {
      var x :| x in ds;
      ImageSize(ds - {x}, deals);
      var b := set d | d in ds - {x} :: deals[d].negotiationId;
      assert a == b + {deals[x].negotiationId};
    } else {
      assert a == {};
    }
  }

  /** After every quote the negotiations number at most the cap, or one more than the deals that need them. */
  lemma NegotiationsBounded(s: Store, justIssued: Id)
    requires Ordered(s)
    ensures |PruneNegotiations(s, justIssued).negotiations| <=
      if |s.deals| + 1 > MAX_OPEN_NEGOTIATIONS then |s.deals| + 1 else MAX_OPEN_NEGOTIATIONS
  {
    var keep := Referenced(s) + {justIssued};
    var r := PruneNegotiations(s, justIssued);
    EvictBound(s, s.negotiationOrder, keep);
    EvictKeeps(s, s.negotiationOrder, keep);
    if |r.negotiations| > MAX_OPEN_NEGOTIATIONS {
      assert r.negotiations.Keys <= keep;
      SubsetSize(r.negotiations.Keys, keep);
      ImageSize(s.deals.Keys, s.deals);
      assert Referenced(s) == set d | d in s.deals.Keys :: s.deals[d].negotiationId;
      assert |s.deals.Keys| == |s.deals| && |r.negotiations.Keys| == |r.negotiations|;
    }
  }

  /** Negotiations go oldest first among those nothing needs. */
  lemma {:induction false} EvictOldestFirst(s: Store, keys: seq<Id>, keep: set<Id>, i: nat, j: nat)
    requires Distinct(keys) && i < j < |keys| && keys[i] !in keep && keys[j] !in keep
    requires keys[j] in s.negotiations
    ensures keys[j] !in Evict(s, keys, keep).negotiations ==> keys[i] !in Evict(s, keys, keep).negotiations
    decreases |keys|
  {
    if keys != [] && |s.negotiations| > MAX_OPEN_NEGOTIATIONS {
      var t := if keys[0] in keep then s else DropNegotiation(s, keys[0]);
      EvictStep(s, keys, keep);
      EvictKeeps(t, keys[1..], keep);
      assert t.negotiations == if keys[0] in keep then s.negotiations else s.negotiations - {keys[0]};
      assert Distinct(keys[1..]);
      hide *;
      if i > 0 {
        KeysDiffer(keys, j);
        EvictOldestFirst(t, keys[1..], keep, i - 1, j - 1);
      }
    }
  }

  lemma KeysDiffer(keys: seq<Id>, j: nat)
    requires Distinct(keys) && 0 < j < |keys|
    ensures keys[0] != keys[j]
  {
  }

  lemma EvictStep(s: Store, keys: seq<Id>, keep: set<Id>)
    requires keys != [] && |s.negotiations| > MAX_OPEN_NEGOTIATIONS
    ensures Evict(s, keys, keep) == Evict(if keys[0] in keep then s else DropNegotiation(s, keys[0]), keys[1..], keep)
  {
  }


  // ------------------------------------------------------------------ every step keeps the agreement

  lemma AmendTells(s: Store, id: Id, d: Deal, log: Log, k: nat)
    requires NegotiationsTell(s) && id in s.deals && d.negotiationId == s.deals[id].negotiationId
    ensures NegotiationsTell(Amend(s, id, d, log, k))
  {
    hide Distinct;
    var r := Amend(s, id, d, log, k);
    forall n | n in r.negotiations ensures NegotiationTells(r, n) { assert NegotiationTells(s, n); }
  }

  lemma AmendRests(s: Store, id: Id, d: Deal, log: Log, k: nat)
    requires DealsRest(s) && id in s.deals
    requires d.negotiationId == s.deals[id].negotiationId && d.termsHash == s.deals[id].termsHash
    ensures DealsRest(Amend(s, id, d, log, k))
  {
  }

  /** Rewriting a deal in place, its references apart, disturbs nothing. */
  lemma AmendAgrees(s: Store, id: Id, d: Deal, log: Log, k: nat)
    requires Agree(s) && id in s.deals && id in s.logs
    requires d.negotiationId == s.deals[id].negotiationId && d.termsHash == s.deals[id].termsHash
    ensures Agree(Amend(s, id, d, log, k))
    ensures BuyersAgree(s) && d.contract == s.deals[id].contract ==> BuyersAgree(Amend(s, id, d, log, k))
  {
    AmendTells(s, id, d, log, k);
    AmendRests(s, id, d, log, k);
    hide Distinct, NegotiationsTell, DealsRest;
  }

  lemma RecordAgrees(s: Store, id: Id, now: int, kind: Kind, state: Option<State>)
    requires Agree(s)
    ensures var r := Record(s, id, now, kind, state); Agree(r) && (BuyersAgree(s) ==> BuyersAgree(r))
  {
    hide Agree, BuyersAgree, Trim, Amend;
    if id in s.deals && id in s.logs {
      var e := Entry(s.sequence + 1, now, kind, state);
      AmendAgrees(s, id, Append(s.deals[id], e), Logged(s.logs[id], e), s.sequence + 1);
    }
  }

  /** An entry touches nothing but the deal's history and its time. */
  lemma RecordKeeps(s: Store, id: Id, now: int, kind: Kind, state: Option<State>)
    ensures var r := Record(s, id, now, kind, state);
      && r.negotiations == s.negotiations && r.quotes == s.quotes && r.deals.Keys == s.deals.Keys &&
        r.logs.Keys == s.logs.Keys
      && r.dealOrder == s.dealOrder && r.negotiationOrder == s.negotiationOrder
      && forall d :: d in s.deals ==>
        r.deals[d] == s.deals[d].(history := r.deals[d].history, updatedAt := r.deals[d].updatedAt)
  {
    hide Trim;
  }

  lemma AddOrdered(s: Store, id: Id, n: Id, c: Contract, address: Id, now: int)
    requires Ordered(s) && n in s.quotes && n in s.negotiations && id !in s.deals
    ensures Ordered(AddDeal(s, id, n, c, address, now))
  {
    assert Distinct(s.dealOrder + [id]);
    hide Distinct;
  }

  lemma AddRests(s: Store, id: Id, n: Id, c: Contract, address: Id, now: int)
    requires DealsRest(s) && n in s.quotes && n in s.negotiations && id !in s.deals
    ensures DealsRest(AddDeal(s, id, n, c, address, now))
  {
  }

  lemma AddTells(s: Store, id: Id, n: Id, c: Contract, address: Id, now: int)
    requires NegotiationsTell(s) && n in s.quotes && n in s.negotiations && id !in s.deals
    ensures NegotiationsTell(AddDeal(s, id, n, c, address, now))
  {
    var r := AddDeal(s, id, n, c, address, now);
    assert NegotiationTells(s, n);
    assert id !in s.negotiations[n].dealIds;
    assert Distinct(s.negotiations[n].dealIds + [id]);
    hide Distinct;
    forall m | m in r.negotiations ensures NegotiationTells(r, m) { assert NegotiationTells(s, m); }
  }

  lemma InsertAgrees(s: Store, id: Id, n: Id, c: Contract, address: Id, now: int)
    requires Agree(s) && n in s.quotes && n in s.negotiations && id !in s.deals && Selects(s, n, c)
    ensures var r := AddDeal(s, id, n, c, address, now);
      Agree(r) && id in r.deals && (BuyersAgree(s) ==> BuyersAgree(r)) && id in r.logs
  {
    AddOrdered(s, id, n, c, address, now);
    AddRests(s, id, n, c, address, now);
    AddTells(s, id, n, c, address, now);
    AddQuotes(s, id, n, c, address, now);
    hide Ordered, DealsRest, NegotiationsTell, QuotesBelong, BuyersAgree;
    AddBuyers(s, id, n, c, address, now);
  }

  lemma AddQuotes(s: Store, id: Id, n: Id, c: Contract, address: Id, now: int)
    requires QuotesBelong(s) && n in s.quotes && n in s.negotiations && id !in s.deals
    ensures QuotesBelong(AddDeal(s, id, n, c, address, now))
  {
  }

  lemma AddBuyers(s: Store, id: Id, n: Id, c: Contract, address: Id, now: int)
    requires n in s.quotes && n in s.negotiations && id !in s.deals && c.buyer == s.quotes[n].buyer
    ensures BuyersAgree(s) ==> BuyersAgree(AddDeal(s, id, n, c, address, now))
  {
  }

  lemma AskAgrees(s: Store, n: Id, buyer: Id, termsHash: Option<Id>, now: int)
    requires Agree(s) && n !in s.negotiations && n !in s.quotes && n !in Referenced(s)
    ensures Agree(AskStep(s, n, buyer, termsHash, now))
    ensures BuyersAgree(s) ==> BuyersAgree(AskStep(s, n, buyer, termsHash, now))
  {
    OpenAgrees(s, n, buyer, termsHash, now);
    var r := Open(s, n, buyer, termsHash, now);
    assert r.deals == s.deals;
    hide Agree, BuyersAgree, Open;
    EvictAgrees(r, r.negotiationOrder, Referenced(r) + {n});
  }

  lemma OpenAgrees(s: Store, n: Id, buyer: Id, termsHash: Option<Id>, now: int)
    requires Agree(s) && n !in s.negotiations && n !in s.quotes && n !in Referenced(s)
    ensures Agree(Open(s, n, buyer, termsHash, now))
    ensures BuyersAgree(s) ==> BuyersAgree(Open(s, n, buyer, termsHash, now))
  {
    var r := Open(s, n, buyer, termsHash, now);
    OpenedAgrees(s, r, n);
    hide Agree;
    forall d | d in s.deals ensures s.deals[d].negotiationId != n { assert s.deals[d].negotiationId in Referenced(s); }
  }

  lemma OpenedAgrees(s: Store, r: Store, n: Id)
    requires Agree(s) && n !in s.negotiations && n !in s.quotes && n in r.negotiations
    requires r == s.(sequence := r.sequence, negotiations := r.negotiations,
      negotiationOrder := s.negotiationOrder + [n], quotes := r.quotes)
    requires r.negotiations == s.negotiations[n := r.negotiations[n]]
    requires r.negotiations[n].dealIds == [] && (r.negotiations[n].state == if n in r.quotes then QUOTED else REFUSED)
    requires r.quotes == s.quotes || (n in r.quotes && r.quotes == s.quotes[n := r.quotes[n]])
    requires n in r.quotes ==>
      r.quotes[n].buyer == r.negotiations[n].buyer && r.quotes[n].history == r.negotiations[n].history
    ensures Agree(r)
  {
    OpenedOrdered(s, r, n);
    OpenedTells(s, r, n);
    OpenedRests(s, r, n);
    hide *;
    Together(r);
  }

  lemma Together(s: Store)
    requires Ordered(s) && DealsRest(s) && NegotiationsTell(s) && QuotesBelong(s)
    ensures Agree(s)
  {
    hide Ordered, DealsRest, NegotiationsTell, QuotesBelong;
  }

  lemma OpenedOrdered(s: Store, r: Store, n: Id)
    requires Ordered(s) && n !in s.negotiations && r.negotiationOrder == s.negotiationOrder + [n]
    requires r.deals == s.deals && r.dealOrder == s.dealOrder && r.logs == s.logs
    requires r.negotiations.Keys == s.negotiations.Keys + {n}
    ensures Ordered(r)
  {
    assert Distinct(r.negotiationOrder);
    hide Distinct;
  }

  lemma OpenedTells(s: Store, r: Store, n: Id)
    requires NegotiationsTell(s) && n !in s.negotiations && n !in s.quotes && n in r.negotiations
    requires r.deals == s.deals && r.negotiations == s.negotiations[n := r.negotiations[n]]
    requires r.negotiations[n].dealIds == [] && (r.negotiations[n].state == if n in r.quotes then QUOTED else REFUSED)
    requires r.quotes == s.quotes || (n in r.quotes && r.quotes == s.quotes[n := r.quotes[n]])
    ensures NegotiationsTell(r)
  {
    assert Distinct(r.negotiations[n].dealIds);
    hide Distinct;
    forall m | m in r.negotiations ensures NegotiationTells(r, m) {
      if m != n { assert NegotiationTells(s, m); }
    }
  }

  lemma OpenedRests(s: Store, r: Store, n: Id)
    requires DealsRest(s) && QuotesBelong(s) && n !in s.negotiations && n !in s.quotes && n in r.negotiations
    requires r.deals == s.deals && r.negotiations == s.negotiations[n := r.negotiations[n]]
    requires r.quotes == s.quotes || (n in r.quotes && r.quotes == s.quotes[n := r.quotes[n]])
    requires n in r.quotes ==>
      r.quotes[n].buyer == r.negotiations[n].buyer && r.quotes[n].history == r.negotiations[n].history
    ensures DealsRest(r) && QuotesBelong(r)
  {
  }

  lemma PruneAgrees(s: Store, now: int)
    requires Agree(s)
    ensures Agree(PruneDeals(s, now)) && (BuyersAgree(s) ==> BuyersAgree(PruneDeals(s, now)))
  {
    DeleteAllAgrees(s, Victims(s, now));
  }

  lemma ProposeAgrees(s: Store, id: Id, n: Id, c: Contract, address: Id, now: int)
    requires Agree(s)
    ensures var r := ProposeStep(s, id, n, c, address, now).0; Agree(r) && (BuyersAgree(s) ==> BuyersAgree(r))
  {
    hide Agree, BuyersAgree, PruneDeals, AddDeal, Record;
    PruneAgrees(s, now);
    var p := PruneDeals(s, now);
    if Selects(p, n, c) && n in p.negotiations && id !in p.deals {
      InsertAgrees(p, id, n, c, address, now);
      var q := AddDeal(p, id, n, c, address, now);
      RecordAgrees(q, id, now, ProposalTaken, None);
      RecordAgrees(Record(q, id, now, ProposalTaken, None), id, now, ProposalAcknowledged, None);
    }
  }

  lemma RegisterAgrees(s: Store, id: Id, n: Id, c: Contract, address: Id, now: int)
    requires Agree(s)
    ensures var r := RegisterStep(s, id, n, c, address, now).0; Agree(r) && (BuyersAgree(s) ==> BuyersAgree(r))
  {
    hide Agree, BuyersAgree, PruneDeals, AddDeal, Record;
    PruneAgrees(s, now);
    var p := PruneDeals(s, now);
    if Selects(p, n, c) && n in p.negotiations && id !in p.deals {
      InsertAgrees(p, id, n, c, address, now);
      RecordAgrees(AddDeal(p, id, n, c, address, now), id, now, ProposalTaken, Some(PROPOSED));
    }
  }

  lemma AcceptAgrees(s: Store, id: Id, proposed: Option<Contract>, passes: bool, now: int)
    requires Agree(s)
    ensures Agree(AcceptStep(s, id, proposed, passes, now).0)
  {
    hide Agree, Record, Adopt, BuyersAgree;
    if id in s.deals && s.deals[id].negotiationId in s.quotes {
      RecordAgrees(s, id, now, AcceptanceRequested, s.deals[id].runtimeState);
      var r := Record(s, id, now, AcceptanceRequested, s.deals[id].runtimeState);
      RecordAgrees(r, id, now, AcceptanceRefused, s.deals[id].runtimeState);
      if id in r.deals && id in r.logs {
        AdoptAgrees(r, id, if proposed.Some? then proposed.value else s.deals[id].contract, now);
      }
    }
  }

  lemma AdoptAgrees(s: Store, id: Id, proposal: Contract, now: int)
    requires Agree(s) && id in s.deals && id in s.logs
    ensures Agree(Adopt(s, id, proposal, now))
  {
    hide Agree, Record, BuyersAgree, Amend;
    var d := s.deals[id].(contract := proposal, state := ACCEPTED_LOCAL);
    AmendAgrees(s, id, d, s.logs[id], s.sequence);
    RecordAgrees(Amend(s, id, d, s.logs[id], s.sequence), id, now, AcceptanceResult, None);
  }

  lemma ObserveAgrees(s: Store, id: Id, state: Option<State>, revision: Option<int>, now: int)
    requires Agree(s)
    ensures var r := ObserveStep(s, id, state, revision, now).0; Agree(r) && (BuyersAgree(s) ==> BuyersAgree(r))
  {
    hide Agree, Record, BuyersAgree, Amend;
    if id in s.deals && id in s.logs && state.Some? {
      var r := Observed(s, id, state, revision);
      ObservedAgrees(s, id, state, revision);
      RecordAgrees(r, id, now, RuntimeState, state);
    }
  }

  lemma ObservedAgrees(s: Store, id: Id, state: Option<State>, revision: Option<int>)
    requires Agree(s) && id in s.deals && id in s.logs && state.Some?
    ensures var r := Observed(s, id, state, revision); Agree(r) && (BuyersAgree(s) ==> BuyersAgree(r))
  {
    hide Agree, BuyersAgree, Amend;
    var d := s.deals[id];
    AmendAgrees(s, id,
      d.(runtimeState := state, runtimeRevision := if revision.Some? then revision else d.runtimeRevision),
      s.logs[id].(observed := s.logs[id].observed + [state.value]), s.sequence);
  }

  lemma PrepareAgrees(s: Store, id: Id, token: Id, artifact: Option<Id>, now: int)
    requires Agree(s)
    ensures var r := PrepareStep(s, id, token, artifact, now).0; Agree(r) && (BuyersAgree(s) ==> BuyersAgree(r))
  {
    hide Agree, Record, BuyersAgree, Amend;
    if id in s.deals && id in s.logs {
      var d := s.deals[id].(token := Some(token), artifact := artifact, state := DELIVERED_LOCAL);
      AmendAgrees(s, id, d, s.logs[id], s.sequence);
      RecordAgrees(Amend(s, id, d, s.logs[id], s.sequence), id, now, DeliveryPrepared, None);
    }
  }

  lemma RevokeAgrees(s: Store, id: Id, now: int)
    requires Agree(s)
    ensures var r := RevokeStep(s, id, now); Agree(r) && (BuyersAgree(s) ==> BuyersAgree(r))
  {
    hide Agree, Record, BuyersAgree, Amend;
    if id in s.deals && id in s.logs {
      var d := s.deals[id].(revoked := true);
      AmendAgrees(s, id, d, s.logs[id], s.sequence);
      RecordAgrees(Amend(s, id, d, s.logs[id], s.sequence), id, now, CapabilityRevoked, d.runtimeState);
    }
  }

  /** Every operation, also one that throws half-way, leaves the three stores agreeing. */
  lemma NextAgrees(s: Store, o: Operation, now: int)
    requires Agree(s) && FreshIds(s, o)
    ensures Agree(Next(s, o, now).0)
    ensures BuyersAgree(s) && !o.Accept? ==> BuyersAgree(Next(s, o, now).0)
  {
    hide Agree, BuyersAgree, AskStep, ProposeStep, RegisterStep, AcceptStep, ObserveStep, Record, PrepareStep,
      RevokeStep;
    match o
    case Ask(n, buyer, valid, termsHash) => if valid { AskAgrees(s, n, buyer, termsHash, now); }
    case Propose(d, n, c, address) => ProposeAgrees(s, d, n, c, address, now);
    case Register(d, n, c, address) => RegisterAgrees(s, d, n, c, address, now);
    case Accept(d, proposed, passes) => AcceptAgrees(s, d, proposed, passes, now);
    case Observe(d, state, revision) => ObserveAgrees(s, d, state, revision, now);
    case Interact(d) => RecordAgrees(s, d, now, Interaction, None);
    case Prepare(d, token, artifact) => PrepareAgrees(s, d, token, artifact, now);
    case Revoke(d) => RevokeAgrees(s, d, now);
  }
}
