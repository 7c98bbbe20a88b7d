/**
 The seller's stores as the object that updates them in place. Every method's new state is the operation's on
 the old one, so what `StoreTheorems` proves of runs holds of every sequence of calls.
 */
module DataSellers {
  import opened Sorting
  import opened Agreement
  import opened Stores
  import opened StoreRuns
  import opened StoreTheorems
  import opened StoreService
  import opened StoreOutcomes

  class DataSeller {
    var negotiations: map<Id, Negotiation>
    var negotiationOrder: seq<Id>
    var quotes: map<Id, Quote>
    var deals: map<Id, Deal>
    var dealOrder: seq<Id>
    var historySequence: nat
    ghost var logs: map<Id, Log>

    ghost function Contents(): Store
      reads this
    {
      Store(negotiations, negotiationOrder, quotes, deals, dealOrder, historySequence, logs)
    }

    /** The stores agree, every history is the tail of everything entered, and tokens and artifacts come together. */
    ghost predicate Valid()
      reads this
    {
      Agree(Contents()) && Histories(Contents()) && Armed(Contents())
    }

    constructor ()
      ensures Valid() && Contents() == Empty()
    {
      negotiations, negotiationOrder, quotes := map[], [], map[];
      deals, dealOrder, historySequence, logs := map[], [], 0, map[];
    }

    // ---------------------------------------------------------------- pruning

    method DeleteDeal(id: Id)
      modifies this
      ensures Contents() == Stores.DeleteDeal(old(Contents()), id)
    {
      if id !in deals { return; }
      var n := deals[id].negotiationId;
      deals, dealOrder := deals - {id}, Remove(dealOrder, id);
      logs := logs - {id};
      if n !in negotiations { return; }
      var rest := Remove(negotiations[n].dealIds, id);
      negotiations := negotiations[n := negotiations[n].(dealIds := rest)];
      if rest == [] { negotiations := negotiations[n := negotiations[n].(state := QUOTED)]; }
    }

    /** One pass deletes what has expired and collects the rest; a second deletes the oldest of those over the cap. */
    method PruneDeals(now: int)
      requires Ordered(Contents())
      modifies this
      ensures Contents() == Stores.PruneDeals(old(Contents()), now)
    {
      ghost var s := Contents();
      hide DeleteAll, Stale, Fresh, Stores.DeleteDeal, Reclaimable, Distinct;
      var keys := dealOrder;
      var reclaimable: seq<Id> := [];
      NoVictims(s, now);
      for k := 0 to |keys|
        invariant Contents() == DeleteAll(s, Stale(s, now, keys[..k]))
        invariant reclaimable == Fresh(s, now, keys[..k])
      {
        var id := keys[k];
        OneKey(s, now, keys, k);
        DeleteAllKeeps(s, Stale(s, now, keys[..k]));
        if !Reclaimable(deals[id]) {
          assert Stale(s, now, keys[..k]) + [] == Stale(s, now, keys[..k]);
        } else if Expired(deals[id], now) {
          DeleteSnoc(s, Stale(s, now, keys[..k]), id);
          DeleteDeal(id);
        } else {
          assert Stale(s, now, keys[..k]) + [] == Stale(s, now, keys[..k]);
          reclaimable := reclaimable + [id];
        }
      }
      assert keys[..|keys|] == keys;
      var excess := Excess(|reclaimable|);
      ghost var stale := Stale(s, now, keys);
      assert stale + reclaimable[..0] == stale;
      for k := 0 to excess
        invariant Contents() == DeleteAll(s, stale + reclaimable[..k])
      {
        DeleteSnoc(s, stale + reclaimable[..k], reclaimable[k]);
        assert stale + reclaimable[..k] + [reclaimable[k]] == stale + reclaimable[..k + 1];
        DeleteDeal(reclaimable[k]);
      }
    }

    /** Oldest first until the cap is met, skipping every negotiation a deal rests on and the one just issued. */
    method PruneNegotiations(justIssued: Id)
      modifies this
      ensures Contents() == Stores.PruneNegotiations(old(Contents()), justIssued)
    {
      if |negotiations| <= MAX_OPEN_NEGOTIATIONS { return; }
      var referenced := (set d | d in deals :: deals[d].negotiationId) + {justIssued};
      var keys := negotiationOrder;
      var k := 0;
      assert keys[0..] == keys;
      ghost var goal := Stores.PruneNegotiations(Contents(), justIssued);
      assert Evict(Contents(), keys, referenced) == goal;
      hide Stores.PruneNegotiations, Evict, Remove;
      while k < |keys|
        invariant 0 <= k <= |keys|
        invariant Evict(Contents(), keys[k..], referenced) == goal
      {
        EvictsOne(Contents(), keys, k, referenced);
        if |negotiations| <= MAX_OPEN_NEGOTIATIONS { return; }
        if keys[k] !in referenced {
          negotiations := negotiations - {keys[k]};
          negotiationOrder := Remove(negotiationOrder, keys[k]);
          quotes := quotes - {keys[k]};
        }
        k := k + 1;
      }
      EvictsAll(Contents(), referenced);
      assert keys[k..] == [];
    }

    // ---------------------------------------------------------------- history

    /** Append, then drop from the front whatever exceeds the cap. */
    method RecordInteraction(id: Id, now: int, kind: Kind, state: Option<State>) returns (ok: bool)
      requires id in deals ==> id in logs
      modifies this
      ensures Contents() == Record(old(Contents()), id, now, kind, state) && ok == (id in old(deals))
    {
      if id !in deals { return false; }
      historySequence := historySequence + 1;
      var entry := Entry(historySequence, now, kind, state);
      var history := deals[id].history + [entry];
      if |history| > MAX_HISTORY_ENTRIES_PER_DEAL { history := history[|history| - MAX_HISTORY_ENTRIES_PER_DEAL..]; }
      deals := deals[id := deals[id].(history := history, updatedAt := now)];
      logs := logs[id := Logged(logs[id], entry)];
      return true;
    }

    method Interact(id: Id, now: int) returns (ok: bool)
      requires Valid()
      modifies this
      ensures Valid() && (Contents(), ok) == Next(old(Contents()), Operation.Interact(id), now)
    {
      ghost var s := Contents();
      hide Agree, Histories, Armed, Record, Amend, FreshIds;
      Kept(s, Operation.Interact(id), now);
      ok := RecordInteraction(id, now, Interaction, None);
    }

    method ObserveRuntimeStatus(id: Id, state: Option<State>, revision: Option<int>, now: int) returns (ok: bool)
      requires Valid()
      modifies this
      ensures Valid() && (Contents(), ok) == Next(old(Contents()), Operation.Observe(id, state, revision), now)
    {
      ghost var s := Contents();
      hide Agree, Histories, Armed, Record, Amend, FreshIds;
      Kept(s, Operation.Observe(id, state, revision), now);
      if id !in deals { return false; }
      if state.None? { return true; }
      var changed := deals[id].runtimeState != state;
      deals := deals[id := deals[id].(runtimeState := state)];
      if revision.Some? { deals := deals[id := deals[id].(runtimeRevision := revision)]; }
      logs := logs[id := logs[id].(observed := logs[id].observed + [state.value])];
      AmendIs(s, id, deals[id], logs[id], Contents());
      if changed { var _ := RecordInteraction(id, now, RuntimeState, state); }
      return true;
    }

    // ---------------------------------------------------------------- quoting and formation

    method AnswerQuery(n: Id, buyer: Id, validBuyer: bool, termsHash: Option<Id>, now: int) returns (ok: bool)
      requires Valid() && FreshIds(Contents(), Ask(n, buyer, validBuyer, termsHash))
      modifies this
      ensures Valid() && (Contents(), ok) == Next(old(Contents()), Ask(n, buyer, validBuyer, termsHash), now)
    {
      ghost var s := Contents();
      hide Agree, Histories, Armed, Record, Amend, FreshIds;
      Kept(s, Ask(n, buyer, validBuyer, termsHash), now);
      hide Evict, Referenced, Open;
      if !validBuyer { return false; }
      var asked := Entry(historySequence + 1, now, QueryAsked, None);
      var negotiation := Negotiation(buyer, REFUSED, [], [asked]);
      var answered := Entry(historySequence + 2, now, QuoteAnswered, None);
      historySequence := historySequence + 2;
      negotiation := negotiation.(history := negotiation.history + [answered]);
      if termsHash.Some? {
        negotiation := negotiation.(state := QUOTED);
        quotes := quotes[n := Quote(buyer, termsHash.value, negotiation.history)];
      }
      negotiations, negotiationOrder := negotiations[n := negotiation], negotiationOrder + [n];
      assert negotiation.history == [asked, answered];
      OpenIs(s, Contents(), n, buyer, termsHash, now);
      PruneNegotiations(n);
      return true;
    }

    method InsertDeal(id: Id, n: Id, contract: Contract, address: Id, now: int)
      requires n in quotes && n in negotiations
      modifies this
      ensures Contents() == AddDeal(old(Contents()), id, n, contract, address, now)
    {
      var history := quotes[n].history;
      deals := deals[id :=
        Deal(n, PROPOSED_LOCAL, None, None, quotes[n].termsHash, address, contract, now, history, None, false, None)];
      dealOrder := dealOrder + [id];
      logs := logs[id := Log(history, [])];
      negotiations := negotiations[n := negotiations[n].(state := AGREEMENT_STARTED)];
      if id !in negotiations[n].dealIds {
        negotiations := negotiations[n := negotiations[n].(dealIds := negotiations[n].dealIds + [id])];
      }
    }

    method ProposeDeal(id: Id, n: Id, contract: Contract, address: Id, now: int) returns (ok: bool)
      requires Valid() && FreshIds(Contents(), Propose(id, n, contract, address))
      modifies this
      ensures Valid() && (Contents(), ok) == Next(old(Contents()), Propose(id, n, contract, address), now)
    {
      ghost var s := Contents();
      StillNew(s, id, now);
      hide Agree, Histories, Armed, Record, Amend, FreshIds;
      Kept(s, Propose(id, n, contract, address), now);
      PruneAgrees(s, now);
      ghost var p := Stores.PruneDeals(s, now);
      QuotedOpen(p, n);
      ProposeIs(s, id, n, contract, address, now);
      hide Stores.PruneDeals, AddDeal, Next;
      PruneDeals(now);
      assert Contents() == p;
      if n !in quotes || contract.pin != Some(quotes[n].termsHash) ||
        contract.buyer != quotes[n].buyer
      {
        return false;
      }
      InsertDeal(id, n, contract, address, now);
      ghost var q := Contents();
      assert q == AddDeal(p, id, n, contract, address, now);
      AddedThere(p, id, n, contract, address, now);
      var _ := RecordInteraction(id, now, ProposalTaken, None);
      RecordKeeps(q, id, now, ProposalTaken, None);
      var _ := RecordInteraction(id, now, ProposalAcknowledged, None);
      return true;
    }

    method RegisterLiveDeal(id: Id, n: Id, contract: Contract, address: Id, now: int) returns (ok: bool)
      requires Valid()
      modifies this
      ensures Valid() && (Contents(), ok) == Next(old(Contents()), Register(id, n, contract, address), now)
    {
      ghost var s := Contents();
      hide Agree, Histories, Armed, Record, Amend, FreshIds;
      Kept(s, Register(id, n, contract, address), now);
      PruneAgrees(s, now);
      ghost var p := Stores.PruneDeals(s, now);
      QuotedOpen(p, n);
      hide Stores.PruneDeals, AddDeal;
      PruneDeals(now);
      assert Contents() == p;
      if n !in quotes || contract.pin != Some(quotes[n].termsHash) ||
        contract.buyer != quotes[n].buyer
      {
        return false;
      }
      if id in deals {
        var existing := deals[id];
        if existing.negotiationId != n || existing.termsHash != quotes[n].termsHash ||
          existing.buyerAddress != address {
          return false;
        }
        return true;
      }
      InsertDeal(id, n, contract, address, now);
      AddedThere(p, id, n, contract, address, now);
      var _ := RecordInteraction(id, now, ProposalTaken, Some(PROPOSED));
      return true;
    }

    method AcceptDeal(id: Id, proposed: Option<Contract>, passes: bool, now: int) returns (ok: bool)
      requires Valid()
      modifies this
      ensures Valid() && (Contents(), ok) == Next(old(Contents()), Accept(id, proposed, passes), now)
      ensures ok ==>
        && passes && id in old(deals) && id in deals && deals[id].state == ACCEPTED_LOCAL
        && deals[id].contract == (if proposed.Some? then proposed.value else old(deals)[id].contract)
        && deals[id].contract.pin == Some(deals[id].termsHash)
      ensures !ok && id in old(deals) ==> id in deals && OnlyEntered(old(deals)[id], deals[id])
    {
      ghost var s := Contents();
      AcceptOutcome(s, id, proposed, passes, now);
      hide Agree, Histories, Armed, Record, Amend, FreshIds;
      Kept(s, Accept(id, proposed, passes), now);
      hide Adopt;
      if id !in deals { return false; }
      var proposal := if proposed.Some? then proposed.value else deals[id].contract;
      if deals[id].negotiationId !in quotes { return false; }
      var pinned := quotes[deals[id].negotiationId].termsHash;
      var shown := deals[id].runtimeState;
      RecordKeeps(s, id, now, AcceptanceRequested, shown);
      var _ := RecordInteraction(id, now, AcceptanceRequested, shown);
      assert deals.Keys == s.deals.Keys && id in deals && id in logs;
      if !passes || proposal.pin != Some(pinned) {
        var _ := RecordInteraction(id, now, AcceptanceRefused, shown);
        return false;
      }
      AdoptContract(id, proposal, now);
      return true;
    }

    /** The accepted contract becomes the record's, whatever state the deal had reached. */
    method AdoptContract(id: Id, proposal: Contract, now: int)
      requires id in deals && id in logs
      modifies this
      ensures Contents() == Adopt(old(Contents()), id, proposal, now)
    {
      ghost var r := Contents();
      hide Record, Amend;
      deals := deals[id := deals[id].(contract := proposal)];
      deals := deals[id := deals[id].(state := ACCEPTED_LOCAL)];
      assert deals == r.deals[id := deals[id]];
      SameLog(r, id, deals[id]);
      var _ := RecordInteraction(id, now, AcceptanceResult, None);
    }

    // ---------------------------------------------------------------- delivery

    method PrepareDelivery(id: Id, token: Id, artifact: Option<Id>, now: int) returns (ok: bool)
      requires Valid()
      modifies this
      ensures Valid() && (Contents(), ok) == Next(old(Contents()), Prepare(id, token, artifact), now)
    {
      ghost var s := Contents();
      hide Agree, Histories, Armed, Record, Amend, FreshIds;
      Kept(s, Prepare(id, token, artifact), now);
      if id !in deals || deals[id].state == PROPOSED_LOCAL { return false; }
      if deals[id].negotiationId !in quotes || artifact.None? { return false; }
      deals := deals[id := deals[id].(token := Some(token))];
      deals := deals[id := deals[id].(artifact := artifact)];
      deals := deals[id := deals[id].(state := DELIVERED_LOCAL)];
      assert deals == s.deals[id := deals[id]];
      SameLog(s, id, deals[id]);
      var _ := RecordInteraction(id, now, DeliveryPrepared, None);
      return true;
    }

    method RevokeCapability(id: Id, now: int)
      requires Valid()
      modifies this
      ensures Valid() && (Contents(), true) == Next(old(Contents()), Revoke(id), now)
    {
      ghost var s := Contents();
      hide Agree, Histories, Armed, Record, Amend, FreshIds;
      Kept(s, Revoke(id), now);
      if id in deals && !deals[id].revoked {
        deals := deals[id := deals[id].(revoked := true)];
        SameLog(s, id, deals[id]);
        var _ := RecordInteraction(id, now, CapabilityRevoked, deals[id].runtimeState);
      }
    }

    /** Something is returned exactly for the stored token of an unrevoked deal, and then it is that deal's artifact. */
    method Artifact(id: Id, cap: Option<Id>) returns (r: Option<Id>)
      requires Valid()
      ensures r.Some? <==> id in deals && cap.Some? && deals[id].token == cap && !deals[id].revoked
      ensures r.Some? ==> r == deals[id].artifact
    {
      if id !in deals || deals[id].token.None? || deals[id].revoked || cap.None? ||
        cap != deals[id].token
      {
        return None;
      }
      return deals[id].artifact;
    }
  }

  lemma Kept(s: Store, o: Operation, now: int)
    requires Agree(s) && Histories(s) && Armed(s) && FreshIds(s, o)
    ensures Agree(Next(s, o, now).0) && Histories(Next(s, o, now).0) && Armed(Next(s, o, now).0)
    ensures Ordered(s) && s.logs.Keys == s.deals.Keys
  {
    NextAgrees(s, o, now);
    NextTold(s, o, now);
    NextArmed(s, o, now);
    assert forall d :: d in s.logs <==> d in s.deals;
  }

  lemma StillNew(s: Store, id: Id, now: int)
    requires id !in s.deals
    ensures id !in Stores.PruneDeals(s, now).deals
  {
    DeleteAllKeeps(s, Victims(s, now));
  }

  lemma QuotedOpen(s: Store, n: Id)
    requires Agree(s)
    ensures n in s.quotes ==> n in s.negotiations
  {
  }

  lemma AmendIs(s: Store, id: Id, d: Deal, log: Log, r: Store)
    requires r == s.(deals := s.deals[id := d], logs := s.logs[id := log])
    ensures r == Amend(s, id, d, log, s.sequence)
  {
  }

  lemma OpenIs(s: Store, r: Store, n: Id, buyer: Id, termsHash: Option<Id>, now: int)
    requires n in r.negotiations && r.deals == s.deals && r.dealOrder == s.dealOrder && r.logs == s.logs
    requires r.sequence == s.sequence + 2 && r.negotiationOrder == s.negotiationOrder + [n]
    requires r.negotiations == s.negotiations[n := r.negotiations[n]]
    requires r.negotiations[n] == Negotiation(buyer, if termsHash.Some? then QUOTED else REFUSED, [],
      [Entry(s.sequence + 1, now, QueryAsked, None), Entry(s.sequence + 2, now, QuoteAnswered, None)])
    requires r.quotes == if termsHash.Some? then s.quotes[n := Quote(buyer, termsHash.value,
      r.negotiations[n].history)] else s.quotes
    ensures r == Open(s, n, buyer, termsHash, now)
  {
  }

  lemma SameLog(s: Store, id: Id, d: Deal)
    requires id in s.logs
    ensures Amend(s, id, d, s.logs[id], s.sequence) == s.(deals := s.deals[id := d])
  {
    assert s.logs[id := s.logs[id]] == s.logs;
  }

  lemma DeleteSnoc(s: Store, ids: seq<Id>, x: Id)
    ensures DeleteAll(s, ids + [x]) == Stores.DeleteDeal(DeleteAll(s, ids), x)
  {
    assert (ids + [x])[..|ids|] == ids;
  }

  lemma EvictsAll(s: Store, keep: set<Id>)
    ensures Evict(s, [], keep) == s
  {
  }

  lemma EvictsOne(s: Store, keys: seq<Id>, k: nat, keep: set<Id>)
    requires k < |keys|
    ensures Evict(s, keys[k..], keep) ==
      if |s.negotiations| <= MAX_OPEN_NEGOTIATIONS then s
      else Evict(if keys[k] in keep then s else DropNegotiation(s, keys[k]), keys[k + 1..], keep)
  {
    assert keys[k..][1..] == keys[k + 1..];
  }

  lemma NoVictims(s: Store, now: int)
    ensures Stale(s, now, []) == [] && Fresh(s, now, []) == [] && DeleteAll(s, []) == s
  {
  }

  /** What one more key of the first pass adds to either list. */
  lemma OneKey(s: Store, now: int, keys: seq<Id>, k: nat)
    requires Ordered(s) && keys == s.dealOrder && k < |keys|
    ensures keys[k] in s.deals && keys[k] !in Stale(s, now, keys[..k])
    ensures var d := s.deals[keys[k]];
      && Stale(s, now, keys[..k + 1]) ==
           Stale(s, now, keys[..k]) + (if Reclaimable(d) && Expired(d, now) then [keys[k]] else [])
      && Fresh(s, now, keys[..k + 1]) ==
           Fresh(s, now, keys[..k]) + (if Reclaimable(d) && !Expired(d, now) then [keys[k]] else [])
  {
    assert keys[..k + 1][..k] == keys[..k];
    assert keys[k] in s.dealOrder;
  }

  lemma AddedThere(p: Store, id: Id, n: Id, c: Contract, address: Id, now: int)
    requires n in p.quotes && n in p.negotiations
    ensures var r := AddDeal(p, id, n, c, address, now); id in r.deals && id in r.logs
  {
  }
}
