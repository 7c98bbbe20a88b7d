/** Every segment, every Runtime move and every failure keeps the invariant of the live run. */
module LiveSteps {
  import opened Sorting
  import opened Extension
  import opened Agreement
  import opened Live
  import opened LiveSafety

  // ------------------------------------------------------------------ parts shared by many steps

  /** The Runtime, the record, the signatures and the outcome are as before. */
  predicate SameWorld(w: World, w': World) {
    && w'.seller == w.seller && w'.dealId == w.dealId && w'.rt == w.rt && w'.terms == w.terms
    && w'.rec == w.rec && w'.dealTerms == w.dealTerms && w'.nextOid == w.nextOid && w'.passed == w.passed
    && w'.signed == w.signed && w'.outcome == w.outcome && w'.stale == w.stale && w'.given == w.given
  }

  lemma SameWorldOk(w: World, w': World)
    requires WorldOk(w) && SameWorld(w, w')
    ensures WorldOk(w') && Keeps(w, w')
  {
    forall s | s in w'.signed ensures SignedOk(w', s) { GrowsSigned(w, w', s); }
    if w.rec.Some? { GrowsShown(w, w', w.rec.value.runtimeState); }
  }

  lemma ThreadFact(w: World, tid: nat)
    requires Inv(w) && tid in w.threads
    ensures ThreadOk(w, w.threads[tid]) && tid < w.nextTid
  {
  }

  /** The status a thread holds was read once. */
  lemma HeldStatus(w: World, tid: nat)
    requires Inv(w) && tid in w.threads
    requires var t := w.threads[tid];
      t.NoteStatusReply? || t.RejectionReply? || t.RefreshReply? || t.ObserveReply? || t.WatchReply? ||
        t.DeliverStatusReply? || t.DeliverObserve? || t.DeliverProbeReply?
    ensures Snapshot(w, w.threads[tid].st)
  {
    ThreadFact(w, tid);
  }

  lemma WorldFacts(w: World)
    requires Inv(w)
    ensures w.terms.OfTerms?
    ensures w.dealTerms.Some? ==> w.dealTerms == Some(w.terms) && Known(w)
    ensures w.rec.Some? ==> TermsHashOf(w.rec.value.contract) == w.terms
    ensures w.rec.Some? && w.rec.value.state != PROPOSED_LOCAL ==> VerifiedBuyer(w, w.rec.value.buyer)
  {
  }

  /** A thread changes its place without changing its role; nothing else moves. */
  lemma Advance(w: World, tid: nat, t: Thread)
    requires Inv(w) && tid in w.threads && ThreadOk(w, t)
    requires t.IsDelivery() == w.threads[tid].IsDelivery() && t.IsWatcher() == w.threads[tid].IsWatcher()
    ensures Inv(Put(w, tid, t))
  {
    var w' := Put(w, tid, t);
    SameWorldOk(w, w');
    KeepsThread(w, w', t);
    OthersOk(w, w', tid);
    SameRole(w, w', tid);
  }

  lemma BystanderGoes(w: World, tid: nat)
    requires Inv(w) && tid in w.threads && !w.threads[tid].IsDelivery() && !w.threads[tid].IsWatcher()
    ensures Inv(End(w, tid))
  {
    var w' := End(w, tid);
    SameWorldOk(w, w');
    OthersOk(w, w', tid);
    BystanderEnds(w, w', tid);
  }

  lemma BystanderComes(w: World, t: Thread)
    requires Inv(w) && ThreadOk(w, t) && !t.IsDelivery() && !t.IsWatcher()
    ensures Inv(Spawn(w, t))
  {
    var w' := Spawn(w, t);
    SameWorldOk(w, w');
    KeepsThread(w, w', t);
    OthersOk(w, w', w.nextTid);
    Starts(w, w', w.nextTid, t);
  }

  lemma DeliveryGoes(w: World, tid: nat)
    requires Inv(w) && tid in w.threads && w.threads[tid].IsDelivery()
    ensures Inv(DeliverEnd(w, tid))
  {
    var w' := DeliverEnd(w, tid);
    SameWorldOk(w, w');
    OthersOk(w, w', tid);
    LastEnds(w, w', tid);
  }

  /** Observing a status changes the record's Runtime state and nothing the invariant reads. */
  lemma ObservedInv(w: World, st: Status)
    requires Inv(w) && w.rec.Some? && Snapshot(w, st)
    ensures Inv(Observed(w, st))
  {
    assert Shown(Observed(w, st), Some(st.state)) by { assert Was(Observed(w, st), st.revision, st.state); }
    hide Shown;
    hide Guarded, Consistent, Deliveries, SignedOk, ThreadOk;
    var w' := Observed(w, st);
    forall s | s in w'.signed ensures SignedOk(w', s) { GrowsSigned(w, w', s); }
    assert Keeps(w, w');
    forall i | i in w'.threads
      ensures i < w'.nextTid && ThreadOk(w', w'.threads[i])
    {
      KeepsThread(w, w', w.threads[i]);
    }
    assert Guarded(w') by { SameThreads(w, w'); }
  }

  /** One more signature, by the log alone. */
  lemma SameThreads(w: World, w': World)
    requires Guarded(w) && w'.threads == w.threads && w'.delivering == w.delivering && w'.watching == w.watching
    ensures Guarded(w')
  {
  }

  lemma SignInv(w: World, s: Signed)
    requires Inv(w) && SignedOk(w, s)
    ensures Inv(Sign(w, s))
  {
    hide Guarded, Consistent, Deliveries, SignedOk, ThreadOk;
    var w' := Sign(w, s);
    assert Keeps(w, w');
    forall x | x in w'.signed ensures SignedOk(w', x) {
      assert x in w.signed || x == s;
      GrowsSigned(w, w', x);
    }
    if w.rec.Some? { GrowsShown(w, w', w.rec.value.runtimeState); }
    forall i | i in w'.threads
      ensures i < w'.nextTid && ThreadOk(w', w'.threads[i])
    {
      KeepsThread(w, w', w.threads[i]);
    }
    assert Guarded(w') by { SameThreads(w, w'); }
  }

  /** More was given. */
  lemma GivenInv(w: World, given: Given)
    requires Inv(w) && GivenMore(w.given, given)
    ensures Inv(w.(given := given))
  {
    hide Guarded, Consistent, Deliveries, SignedOk, ThreadOk, LinksOk;
    var w' := w.(given := given);
    assert Keeps(w, w');
    forall s | s in w'.signed ensures SignedOk(w', s) { GrowsSigned(w, w', s); }
    if w.rec.Some? { GrowsShown(w, w', w.rec.value.runtimeState); }
    forall i | i in w'.threads
      ensures i < w'.nextTid && ThreadOk(w', w'.threads[i])
    {
      KeepsThread(w, w', w.threads[i]);
    }
    assert Guarded(w') by { SameThreads(w, w'); }
    assert LinksOk(w') by { SameLinks(w, w'); }
  }

  lemma SameLinks(w: World, w': World)
    requires LinksOk(w) && w'.rt == w.rt && w.signed <= w'.signed
    ensures LinksOk(w')
  {
  }

  // ------------------------------------------------------------------ the Runtime moves

  /** Neither a delivery nor, before one, a refund. */
  predicate Harmless(rt: Machine<Payload>, i: Input<Payload>) {
    i.Submit? ==>
      && i.command.kind != Delivered
      && (i.command.kind == RefundConsented && i.command.expectedRevision == rt.revision ==> rt.state != FULFILLING)
  }

  lemma RuntimeStep(rt: Machine<Payload>, i: Input<Payload>)
    requires Consistent(rt) && Harmless(rt, i)
    ensures var rt' := Step(rt, i).0;
      && Consistent(rt') && Deliveries(rt'.chain) == Deliveries(rt.chain)
      && MovesOn(rt, rt') && ChainGrows(rt, rt', i)
      && (rt'.state == CANCELLED ==> rt.state == CANCELLED || Deliveries(rt.chain) != [])
  {
    StepConsistent(rt, i);
    StepDeliveries(rt, i);
    PathCounts(rt.chain, rt.state);
    hide Consistent, Path, Deliveries, Fundings;
    StepStates(rt, i);
  }

  lemma StepDeliveries(rt: Machine<Payload>, i: Input<Payload>)
    requires i.Submit? ==> i.command.kind != Delivered
    ensures Deliveries(Step(rt, i).0.chain) == Deliveries(rt.chain)
  {
    var rt' := Step(rt, i).0;
    if rt'.chain != rt.chain { assert rt'.chain[..|rt'.chain| - 1] == rt.chain; }
  }

  /** What an agreement moves to, and from where it is cancelled. */
  lemma StepStates(rt: Machine<Payload>, i: Input<Payload>)
    requires Harmless(rt, i)
    ensures var rt' := Step(rt, i).0;
      && MovesOn(rt, rt') && ChainGrows(rt, rt', i)
      && (rt'.state == CANCELLED ==> rt.state in {CANCELLED, DELIVERED, REJECTED, DISPUTED})
  {
  }

  /** At most one link more, and a command in it is the one that came in. */
  predicate ChainGrows(rt: Machine<Payload>, rt': Machine<Payload>, i: Input<Payload>) {
    rt'.chain == rt.chain
    || (|rt'.chain| == |rt.chain| + 1 && rt'.chain[..|rt.chain|] == rt.chain
        && (rt'.chain[|rt.chain|].driver.ByCommand? ==> i == Submit(rt'.chain[|rt.chain|].driver.command)))
  }

  /** A Runtime step that commits no delivery. */
  lemma RuntimeInv(w: World, i: Input<Payload>, bps: Option<nat>)
    requires Inv(w) && Harmless(w.rt, i) && (i.Submit? ==> CommandSigned(w.signed, i.command))
    ensures Inv(w.(rt := Step(w.rt, i).0, bps := bps))
  {
    RuntimeStep(w.rt, i);
    LinksGrow(w, Step(w.rt, i).0, i);
    hide Inv, Step, Consistent, Deliveries, LinksOk, ChainGrows, MovesOn;
    ReplacedRuntime(w, Step(w.rt, i).0, bps);
  }

  lemma LinksGrow(w: World, rt: Machine<Payload>, i: Input<Payload>)
    requires Inv(w) && ChainGrows(w.rt, rt, i) && (i.Submit? ==> CommandSigned(w.signed, i.command))
    ensures LinksOk(w.(rt := rt))
  {
    hide ThreadsOk, Guarded, SignaturesOk, Consistent, Deliveries, CommandSigned;
    forall k | 0 <= k < |rt.chain| && rt.chain[k].driver.ByCommand?
      ensures CommandSigned(w.signed, rt.chain[k].driver.command)
    {
      if k < |w.rt.chain| { assert rt.chain[..|w.rt.chain|][k] == w.rt.chain[k]; }
    }
  }

  lemma ReplacedRuntime(w: World, rt: Machine<Payload>, bps: Option<nat>)
    requires Inv(w) && Consistent(rt) && Deliveries(rt.chain) == Committed(w)
    requires MovesOn(w.rt, rt) && LinksOk(w.(rt := rt))
    requires rt.state == CANCELLED ==> w.rt.state == CANCELLED || Committed(w) != []
    ensures Inv(w.(rt := rt, bps := bps))
  {
    hide Guarded, SignedOk, ThreadOk, Deliveries, Consistent, CommandSigned;
    var w' := w.(rt := rt, bps := bps);
    assert Keeps(w, w');
    forall s | s in w'.signed ensures SignedOk(w', s) { GrowsSigned(w, w', s); }
    if w.rec.Some? { GrowsShown(w, w', w.rec.value.runtimeState); }
    forall k | k in w'.threads
      ensures k < w'.nextTid && ThreadOk(w', w'.threads[k])
    {
      KeepsThread(w, w', w.threads[k]);
    }
    assert Guarded(w') by { SameThreads(w, w'); }
  }

  // ------------------------------------------------------------------ countersign

  lemma CsCheckInv(w: World, tid: nat, req: CountersignRequest, st: Status)
    requires Inv(w) && tid in w.threads && w.threads[tid] == CsStatusReply(req, st)
    ensures Inv(CsCheck(w, tid, req, st))
  {
    ThreadFact(w, tid);
    if st.terms != TermsHashOf(req.contract) || (st.state != PROPOSED && st.state != COMMITTED) {
      BystanderGoes(w, tid);
    } else {
      Advance(w, tid, CsCard(req, st));
    }
  }

  lemma RegisteredInv(w: World, tid: nat, req: CountersignRequest, st: Status, card: Card)
    requires Inv(w) && tid in w.threads && w.threads[tid] == CsCardReply(req, st, card)
    ensures Inv(Registered(w, tid, req, st))
  {
    var w' := Registered(w, tid, req, st);
    FormationFacts(w, tid);
    RegisteredWorld(w, tid, req, st);
    hide WorldOk, ThreadOk, Keeps;
    OthersOk(w, w', tid);
    BystanderEnds(w, w', tid);
  }

  lemma FormationFacts(w: World, tid: nat)
    requires Inv(w) && tid in w.threads && w.threads[tid].CsCardReply?
    ensures Presented(w, w.threads[tid].req) && Formation(w, w.threads[tid].st)
  {
    ThreadFact(w, tid);
  }

  lemma RegisteredWorld(w: World, tid: nat, req: CountersignRequest, st: Status)
    requires WorldOk(w) && Presented(w, req) && Formation(w, st)
    ensures var w' := Registered(w, tid, req, st); WorldOk(w') && Keeps(w, w')
  {
    var w' := Registered(w, tid, req, st);
    hide SignedOk, Deliveries, Consistent, LinksOk;
    assert Keeps(w, w');
    forall s | s in w'.signed ensures SignedOk(w', s) { GrowsSigned(w, w', s); }
    assert Shown(w', Some(st.state)) by { assert Was(w', st.revision, st.state); }
    SameLinks(w, w');
    hide Shown;
  }

  lemma CountersignInv(w: World, accepted: Contract, a: Acceptance)
    requires Inv(w) && w.rec.Some?
    requires Passed(w.seller, w.dealId, a) && TermsHashOf(a.contract) == w.terms == TermsHashOf(accepted)
    requires a.buyer == w.rec.value.buyer
    ensures Inv(Countersign(w, accepted, a))
  {
    hide Guarded, Consistent, Deliveries, SignedOk, ThreadOk, Passed;
    var w' := Countersign(w, accepted, a);
    assert a in w'.passed;
    assert Keeps(w, w');
    forall s | s in w'.signed ensures SignedOk(w', s) { GrowsSigned(w, w', s); }
    if w.rec.Some? { GrowsShown(w, w', w.rec.value.runtimeState); }
    forall i | i in w'.threads
      ensures i < w'.nextTid && ThreadOk(w', w'.threads[i])
    {
      KeepsThread(w, w', w.threads[i]);
    }
    assert Guarded(w') by { SameThreads(w, w'); }
  }

  lemma CsAcceptInv(w: World, tid: nat, req: CountersignRequest, st: Status, card: Card, v: Validation)
    requires Inv(w) && tid in w.threads && w.threads[tid] == CsCardReply(req, st, card)
    ensures Inv(CsAccept(w, tid, req, st, card, v))
  {
    hide Inv, AcceptTerms, ValidateRuntimeCard, TermsHashOf, Sign, Countersign;
    ThreadFact(w, tid);
    var chainId := ValidateRuntimeCard(card, req.contract.terms);
    if chainId.None? || (w.rec.Some? &&
      (w.rec.value.negotiation != req.negotiation || w.rec.value.buyer != req.buyer)) {
      BystanderGoes(w, tid);
    } else {
      RegisteredInv(w, tid, req, st, card);
      var w1 := Registered(w, tid, req, st);
      var buyer := w1.rec.value.buyer;
      var accepted := AcceptTerms(w.seller, w.dealId, req.contract, buyer, req.buyerAgreementSig, chainId.value, v);
      if accepted.Some? {
        AcceptedInv(w1, tid, req, Acceptance(req.contract, buyer, req.buyerAgreementSig, card, v), accepted.value,
          chainId.value, st.revision);
      }
    }
  }

  lemma AcceptancePasses(seller: Seller, dealId: Text, a: Acceptance, accepted: Contract, chainId: nat)
    requires ValidateRuntimeCard(a.card, a.contract.terms) == Some(chainId)
    requires AcceptTerms(seller, dealId, a.contract, a.buyer, a.buyerAgreementSig, chainId, a.validation) ==
      Some(accepted)
    ensures Passed(seller, dealId, a) && TermsHashOf(accepted) == TermsHashOf(a.contract)
  {
  }

  lemma AcceptedInv(
      w: World, tid: nat, req: CountersignRequest, a: Acceptance, accepted: Contract, chainId: nat, revision: int)
    requires Inv(w) && w.rec.Some? && a.buyer == w.rec.value.buyer && TermsHashOf(a.contract) == w.terms
    requires tid !in w.threads && tid < w.nextTid && (Was(w, revision, PROPOSED) || Was(w, revision, COMMITTED))
    requires Presented(w, req) && Answered(a, req, chainId)
    requires AcceptTerms(w.seller, w.dealId, a.contract, a.buyer, a.buyerAgreementSig, chainId,
      a.validation) == Some(accepted)
    ensures var s := SignedAgreement(req, chainId, w.rec.value.oid, revision);
      var w' := Sign(Countersign(w, accepted, a), s);
      Inv(w') && Inv(Put(w', tid, CsSubmit))
  {
    hide AcceptTerms, ValidateRuntimeCard, TermsHashOf, Passed;
    AcceptancePasses(w.seller, w.dealId, a, accepted, chainId);
    CountersignInv(w, accepted, a);
    var w1 := Countersign(w, accepted, a);
    var s := SignedAgreement(req, chainId, w.rec.value.oid, revision);
    assert a in w1.passed;
    SignInv(w1, s);
    Submitting(Sign(w1, s), tid);
  }

  /** The countersign thread goes on under its own number. */
  lemma Submitting(w: World, tid: nat)
    requires Inv(w) && tid !in w.threads && tid < w.nextTid
    ensures Inv(Put(w, tid, CsSubmit))
  {
    var w' := Put(w, tid, CsSubmit);
    SameWorldOk(w, w');
    OthersOk(w, w', tid);
    Starts(w, w', tid, CsSubmit);
  }

  // ------------------------------------------------------------------ notification, funding, rejection

  lemma ObserveDoneInv(w: World, tid: nat, st: Status)
    requires Inv(w) && tid in w.threads && w.threads[tid] == ObserveReply(st)
    ensures Inv(ObserveDone(w, tid, st))
  {
    hide Inv, Snapshot;
    HeldStatus(w, tid);
    BystanderGoes(w, tid);
    assert Snapshot(End(w, tid), st) by { SameReading(w, End(w, tid), st); }
    if w.rec.Some? { ObservedInv(End(w, tid), st); }
  }

  lemma SameReading(w: World, w': World, st: Status)
    requires Snapshot(w, st) && w'.rt == w.rt && w'.terms == w.terms
    ensures Snapshot(w', st)
  {
  }

  /** The delivery task starts: none was running. */
  lemma DeliveryComes(w: World, t: Thread)
    requires Inv(w) && !w.delivering && ThreadOk(w, t) && t.IsDelivery()
    ensures Inv(Spawn(w.(delivering := true), t))
  {
    var w' := Spawn(w.(delivering := true), t);
    SameWorldOk(w, w');
    KeepsThread(w, w', t);
    OthersOk(w, w', w.nextTid);
    Starts(w, w', w.nextTid, t);
    assert !t.IsWatcher();
  }

  lemma NoteDoneInv(w: World, tid: nat, st: Status, active: bool)
    requires Inv(w) && tid in w.threads && w.threads[tid] == NoteStatusReply(st)
    ensures Inv(NoteDone(w, tid, st, active))
  {
    hide Inv;
    ThreadFact(w, tid);
    BystanderGoes(w, tid);
    if st.state == FULFILLING && w.rec.Some? {
      ObservedInv(End(w, tid), st);
      var w1 := Observed(End(w, tid), st);
      if !w1.delivering { TaskComes(w1, active); }
    }
  }

  /** With the gate's answer noted, the delivery starts or goes straight to its probe. */
  lemma TaskComes(w: World, active: bool)
    requires Inv(w) && !w.delivering && Funded(w.rt.state) && w.given.notified
    ensures var w1 := Gated(w, active); Inv(Spawn(w1.(delivering := true), DeliverStart(w, active)))
  {
    hide Inv;
    WorldFacts(w);
    GivenInv(w, w.given.(gate := w.given.gate || active));
    DeliveryComes(Gated(w, active), DeliverStart(w, active));
  }

  lemma FundSignInv(w: World, tid: nat, accepted: Contract, terms: Digest, context: FundingContext)
    requires Inv(w) && tid in w.threads && w.threads[tid] == FundReply(accepted, terms, context)
    ensures Inv(FundSign(w, tid, accepted, terms, context))
  {
    hide Inv;
    WorldFacts(w);
    ThreadFact(w, tid);
    var a := context.activation;
    if FundSign(w, tid, accepted, terms, context) == End(w, tid) {
      BystanderGoes(w, tid);
    } else {
      assert accepted.terms == w.terms.terms;
      SignInv(w, SignedActivation(context, w.rec.value));
      Advance(Sign(w, SignedActivation(context, w.rec.value)), tid, FundSubmit);
    }
  }

  lemma RejectionSignInv(w: World, tid: nat, kind: CommandType, terms: Digest, st: Status, id: nat)
    requires Inv(w) && tid in w.threads && w.threads[tid] == RejectionReply(kind, terms, st)
    ensures Inv(RejectionSign(w, tid, kind, terms, st, id))
  {
    hide Inv;
    ThreadFact(w, tid);
    if w.rec.None? {
      BystanderGoes(w, tid);
    } else {
      ObservedInv(w, st);
      if st.state != REJECTED { BystanderGoes(Observed(w, st), tid); }
      else { RejectedInv(Observed(w, st), tid, kind, terms, st, id); }
    }
  }

  /** The answer is signed against the revision at which REJECTED was read. */
  lemma RejectedInv(w: World, tid: nat, kind: CommandType, terms: Digest, st: Status, id: nat)
    requires Inv(w) && tid in w.threads && w.threads[tid] == RejectionReply(kind, terms, st) && st.state == REJECTED
    ensures var command := Command(id, kind, Actor.Seller, st.revision, Payload(terms, None, 0));
      Inv(Put(Sign(w, SignedRejectionAnswer(kind, terms, st.revision)), tid, RejectionSubmit(command)))
  {
    hide Inv, ThreadOk, SignedOk;
    var s := SignedRejectionAnswer(kind, terms, st.revision);
    ThreadFact(w, tid);
    AnswerOk(w, kind, terms, st, id);
    SignInv(w, s);
    Advance(Sign(w, s), tid,
            RejectionSubmit(Command(id, kind, Actor.Seller, st.revision, Payload(terms, None, 0))));
  }

  lemma AnswerOk(w: World, kind: CommandType, terms: Digest, st: Status, id: nat)
    requires ThreadOk(w, RejectionReply(kind, terms, st)) && st.state == REJECTED
    ensures var s := SignedRejectionAnswer(kind, terms, st.revision);
      SignedOk(w, s) && ThreadOk(Sign(w, s),
        RejectionSubmit(Command(id, kind, Actor.Seller, st.revision, Payload(terms, None, 0))))
  {
  }

  // ------------------------------------------------------------------ outcome refresh

  /** Applying a settled outcome to the record: a refund revokes, another terminal state keeps. */
  lemma SettledInv(w: World, w': World)
    requires Inv(w) && w.rec.Some?
    requires
      || w' == w.(rec := Some(w.rec.value.(revoked := true)), outcome := w.outcome.(refunded := true))
      || w' == w.(outcome := w.outcome.(kept := true))
    ensures Inv(w')
  {
    hide Guarded, Consistent, Deliveries, SignedOk, ThreadOk;
    assert Keeps(w, w');
    forall s | s in w'.signed ensures SignedOk(w', s) { GrowsSigned(w, w', s); }
    if w.rec.Some? { GrowsShown(w, w', w.rec.value.runtimeState); }
    forall i | i in w'.threads
      ensures i < w'.nextTid && ThreadOk(w', w'.threads[i])
    {
      KeepsThread(w, w', w.threads[i]);
    }
    assert Guarded(w') by { SameThreads(w, w'); }
  }

  lemma RefreshedInv(w: World, st: Status)
    requires Inv(w) && w.rec.Some? && Snapshot(w, st)
    ensures Inv(Refreshed(w, st)) && Refreshed(w, st).threads == w.threads
    ensures Terminal(st.state) ==> Refreshed(w, st).outcome.refunded || Refreshed(w, st).outcome.kept
  {
    hide Inv;
    ObservedInv(w, st);
    if Refund(st) || Terminal(st.state) { SettledInv(Observed(w, st), Refreshed(w, st)); }
  }

  lemma RefreshDoneInv(w: World, tid: nat, st: Status)
    requires Inv(w) && tid in w.threads && w.threads[tid] == RefreshReply(st)
    ensures Inv(RefreshDone(w, tid, st))
  {
    hide Inv, ThreadOk, Snapshot;
    HeldStatus(w, tid);
    BystanderGoes(w, tid);
    SameReading(w, End(w, tid), st);
    if w.rec.Some? { RefreshedInv(End(w, tid), st); }
  }

  lemma WatchDoneInv(w: World, tid: nat, st: Status)
    requires Inv(w) && tid in w.threads && w.threads[tid] == WatchReply(st)
    ensures Inv(WatchDone(w, tid, st))
  {
    hide Inv, ThreadOk, Snapshot, Terminal, Refreshed;
    HeldStatus(w, tid);
    WatcherOk(w, st.state);
    if w.rec.None? {
      Advance(w, tid, WatchSleep);
    } else {
      RefreshedInv(w, st);
      WatcherOk(Refreshed(w, st), st.state);
      Advance(Refreshed(w, st), tid, WatchDecide(st.state));
    }
  }

  lemma WatcherOk(w: World, state: State)
    ensures ThreadOk(w, WatchSleep)
    ensures (Terminal(state) ==> w.outcome.refunded || w.outcome.kept) ==> ThreadOk(w, WatchDecide(state))
  {
  }

  lemma WatchNextInv(w: World, tid: nat, state: State)
    requires Inv(w) && tid in w.threads && w.threads[tid] == WatchDecide(state)
    ensures Inv(WatchNext(w, tid, state))
  {
    hide Terminal;
    if Terminal(state) {
      hide ThreadOk;
      var w' := WatchNext(w, tid, state);
      SameWorldOk(w, w');
      OthersOk(w, w', tid);
      LastEnds(w, w', tid);
    } else {
      Advance(w, tid, WatchSleep);
    }
  }

  // ------------------------------------------------------------------ delivery

  lemma DeliverPrepareInv(w: World, tid: nat, st: Status)
    requires Inv(w) && tid in w.threads && w.threads[tid].IsDelivery() && Ready(w, st)
    ensures Inv(DeliverPrepare(w, tid, st))
  {
    hide Guarded, SignedOk, Consistent, Deliveries;
    if w.rec.None? || w.rec.value.state == PROPOSED_LOCAL {
      Advance(w, tid, DeliverProbe);
    } else {
      Advance(w, tid, DeliverGenerating(w.rec.value.oid, w.rec.value.contract, st));
    }
  }

  lemma DeliverCheckInv(w: World, tid: nat, terms: Digest, st: Status, anchored: bool, domain: bool)
    requires Inv(w) && tid in w.threads && w.threads[tid] == DeliverStatusReply(terms, st)
    ensures Inv(DeliverCheck(w, tid, terms, st, anchored, domain))
  {
    hide Inv;
    WorldFacts(w);
    ThreadFact(w, tid);
    if w.rec.None? {
      Advance(w, tid, DeliverProbe);
    } else {
      ObservedInv(w, st);
      var w1 := Observed(w, st);
      if st.state != FULFILLING || !anchored {
        Advance(w1, tid, DeliverProbe);
      } else {
        var w2 := w1.(given := w1.given.(anchors := true));
        GivenInv(w1, w2.given);
        if !domain { Advance(w2, tid, DeliverFunding(terms, st)); } else { DeliverPrepareInv(w2, tid, st); }
      }
    }
  }

  /** The delivery task moves from one of its places to another. */
  lemma DeliveryMoves(w: World, w': World, tid: nat, t: Thread)
    requires Inv(w) && Grows(w, w') && tid in w.threads && w.threads[tid].IsDelivery() && t.IsDelivery()
    requires w'.threads == w.threads[tid := t] && w'.nextTid == w.nextTid
    requires w'.delivering == w.delivering && w'.watching == w.watching
    requires ThreadOk(w', t)
    ensures ThreadsOk(w') && Guarded(w')
  {
    hide WorldOk, ThreadOk, Grows;
    OthersOkOnDelivery(w, w', tid);
    SameRole(w, w', tid);
  }

  /** The record gets its artifact. */
  lemma MintedInv(w: World, tid: nat, oid: nat, contract: Contract, st: Status, token: nat, csv: Text, rest: Text)
    requires Inv(w) && tid in w.threads && w.threads[tid] == DeliverGenerating(oid, contract, st)
    requires w.rec.Some? && w.rec.value.oid == oid
    ensures Inv(DeliverMint(w, tid, oid, contract, st, token, csv, rest))
  {
    var manifest := Manifest(OfBytes(csv), token, rest);
    var s := SignedEvidence(TermsHashOf(w.rec.value.contract), OfManifest(manifest), st.revision);
    ThreadFact(w, tid);
    WorldFacts(w);
    SignInv(w, s);
    MintedRecord(Sign(w, s), tid, oid, contract, st, manifest, csv);
  }

  lemma MintedRecord(w: World, tid: nat, oid: nat, contract: Contract, st: Status, manifest: Manifest, csv: Text)
    requires Inv(w) && tid in w.threads && w.threads[tid] == DeliverGenerating(oid, contract, st)
    requires w.rec.Some? && w.rec.value.oid == oid && manifest.contentHash == OfBytes(csv)
    ensures var r := w.rec.value.(token := Some(manifest.locatorToken), manifest := Some(manifest),
                                  deliveryHash := Some(OfManifest(manifest)), csv := Some(csv),
                                    state := DELIVERED_LOCAL);
      Inv(Put(w.(rec := Some(r)), tid, DeliverMinted(st)))
  {
    var r := w.rec.value.(token := Some(manifest.locatorToken), manifest := Some(manifest),
                          deliveryHash := Some(OfManifest(manifest)), csv := Some(csv), state := DELIVERED_LOCAL);
    var w' := Put(w.(rec := Some(r)), tid, DeliverMinted(st));
    MintedWorld(w, w', tid, r, st);
    DeliveryMoves(w, w', tid, DeliverMinted(st));
  }

  lemma MintedWorld(w: World, w': World, tid: nat, r: Record, st: Status)
    requires Inv(w) && tid in w.threads && w.threads[tid].DeliverGenerating? && w.rec.Some?
    requires st == w.threads[tid].st
    requires w' == Put(w.(rec := Some(r)), tid, DeliverMinted(st))
    requires ArtifactOk(r) && r.state == DELIVERED_LOCAL && r.revoked == w.rec.value.revoked
    requires r.runtimeState == w.rec.value.runtimeState
    requires r.contract == w.rec.value.contract && r.oid == w.rec.value.oid && r.buyer == w.rec.value.buyer
    requires r.token.Some? && w.rec.value.state != PROPOSED_LOCAL
    ensures WorldOk(w') && Grows(w, w') && ThreadOk(w', DeliverMinted(st))
  {
    hide Guarded, SignaturesOk, Deliveries, Consistent, ThreadOk, ThreadsOk, VerifiedBuyer;
    GeneratingFacts(w, tid);
    assert Grows(w, w');
    SignaturesKept(w, w');
    GrowsShown(w, w', r.runtimeState);
    hide Shown;
    assert VerifiedBuyer(w, r.buyer) ==> VerifiedBuyer(w', r.buyer) by { SameVerified(w, w', r.buyer); }
    MintedThread(w', st);
  }

  lemma GeneratingFacts(w: World, tid: nat)
    requires Inv(w) && tid in w.threads && w.threads[tid].DeliverGenerating?
    ensures Ready(w, w.threads[tid].st)
  {
    ThreadFact(w, tid);
  }

  lemma MintedThread(w: World, st: Status)
    requires Ready(w, st)
    ensures ThreadOk(w, DeliverMinted(st))
  {
  }

  lemma SameVerified(w: World, w': World, buyer: Text)
    requires w.passed == w'.passed
    ensures VerifiedBuyer(w, buyer) <==> VerifiedBuyer(w', buyer)
  {
  }

  lemma SignaturesKept(w: World, w': World)
    requires SignaturesOk(w) && Grows(w, w') && w'.signed == w.signed && w'.passed == w.passed &&
      w'.dealTerms == w.dealTerms
    ensures SignaturesOk(w')
  {
    hide SignedOk;
    forall x | x in w'.signed ensures SignedOk(w', x) { GrowsSigned(w, w', x); }
  }

  /** The held record was replaced meanwhile: the artifact goes to an object nobody serves. */
  lemma OrphanMintedInv(w: World, tid: nat, oid: nat, contract: Contract, st: Status, token: nat, csv: Text, rest: Text)
    requires Inv(w) && tid in w.threads && w.threads[tid] == DeliverGenerating(oid, contract, st)
    requires w.rec.Some? && w.rec.value.oid != oid
    ensures Inv(DeliverMint(w, tid, oid, contract, st, token, csv, rest))
  {
    hide Inv;
    WorldFacts(w);
    ThreadFact(w, tid);
    var s := SignedEvidence(TermsHashOf(contract), OfManifest(Manifest(OfBytes(csv), token, rest)), st.revision);
    SignInv(w, s);
    assert ThreadOk(Sign(w, s), DeliverMinted(st));
    Advance(Sign(w, s), tid, DeliverMinted(st));
  }

  lemma DeliverMintInv(w: World, tid: nat, oid: nat, contract: Contract, st: Status, token: nat, csv: Text, rest: Text)
    requires Inv(w) && tid in w.threads && w.threads[tid] == DeliverGenerating(oid, contract, st)
    ensures Inv(DeliverMint(w, tid, oid, contract, st, token, csv, rest))
  {
    if w.rec.None? {
      Advance(w, tid, DeliverProbe);
    } else if w.rec.value.oid == oid {
      MintedInv(w, tid, oid, contract, st, token, csv, rest);
    } else {
      OrphanMintedInv(w, tid, oid, contract, st, token, csv, rest);
    }
  }

  lemma WatcherComes(w: World)
    requires Inv(w) && !w.watching
    ensures Inv(Spawn(w.(watching := true), WatchStatus))
  {
    var w' := Spawn(w.(watching := true), WatchStatus);
    SameWorldOk(w, w');
    OthersOk(w, w', w.nextTid);
    Starts(w, w', w.nextTid, WatchStatus);
  }

  lemma DeliverWatchInv(w: World, tid: nat, st: Status)
    requires Inv(w) && tid in w.threads && w.threads[tid] == DeliverMinted(st)
    ensures Inv(DeliverWatch(w, tid, st))
  {
    hide Inv;
    ThreadFact(w, tid);
    var w1 := if w.watching then w else Spawn(w.(watching := true), WatchStatus);
    if !w.watching { WatcherComes(w); }
    assert ThreadOk(w1, DeliverEvidence(st));
    Advance(w1, tid, DeliverEvidence(st));
  }

  lemma DeliverCommandInv(w: World, tid: nat, st: Status, id: nat)
    requires Inv(w) && tid in w.threads && w.threads[tid] == DeliverRegistered(st)
    ensures Inv(DeliverCommand(w, tid, st, id))
  {
    hide Inv;
    WorldFacts(w);
    ThreadFact(w, tid);
    if w.rec.None? || w.rec.value.deliveryHash.None? {
      Advance(w, tid, DeliverProbe);
    } else {
      var r := w.rec.value;
      var s := SignedDelivery(TermsHashOf(r.contract), r.deliveryHash.value, st.revision);
      SignInv(w, s);
      var payload := Payload(TermsHashOf(r.contract), r.deliveryHash, 0);
      var command := Command(id, Delivered, Actor.Seller, st.revision, payload);
      Advance(Sign(w, s), tid, DeliverSubmit(command));
    }
  }

  lemma DeliverDoneInv(w: World, tid: nat, st: Status)
    requires Inv(w) && tid in w.threads && w.threads[tid] == DeliverObserve(st)
    ensures Inv(DeliverDone(w, tid, st))
  {
    hide Inv, Snapshot;
    if w.rec.None? {
      ThreadFact(w, tid);
      Advance(w, tid, DeliverProbe);
    } else {
      hide ThreadOk;
      HeldStatus(w, tid);
      DeliveryGoes(w, tid);
      SameReading(w, DeliverEnd(w, tid), st);
      ObservedInv(DeliverEnd(w, tid), st);
    }
  }

  lemma DeliverPauseInv(w: World, tid: nat, expired: bool)
    requires Inv(w) && tid in w.threads && w.threads[tid].IsDelivery()
    ensures Inv(DeliverPause(w, tid, expired))
  {
    if expired { DeliveryGoes(w, tid); } else { Advance(w, tid, DeliverSleep); }
  }

  lemma DeliverProbedInv(w: World, tid: nat, st: Status, expired: bool)
    requires Inv(w) && tid in w.threads && w.threads[tid] == DeliverProbeReply(st)
    ensures Inv(DeliverProbed(w, tid, st, expired))
  {
    hide Inv, Snapshot, ThreadOk;
    HeldStatus(w, tid);
    if w.rec.None? {
      DeliverPauseInv(w, tid, expired);
    } else {
      ObservedInv(w, st);
      if st.state != FULFILLING { DeliveryGoes(Observed(w, st), tid); } else { DeliverPauseInv(Observed(w, st),
        tid, expired); }
    }
  }

  // ------------------------------------------------------------------ the Runtime answers

  lemma DeliveryStep(rt: Machine<Payload>, command: Command<Payload>)
    requires Consistent(rt) && command.kind == Delivered && Deliveries(rt.chain) == []
    requires Step(rt, Submit(command)).1.Applied?
    ensures var rt' := Step(rt, Submit(command)).0;
      && Consistent(rt') && MovesOn(rt, rt') && ChainGrows(rt, rt', Submit(command))
      && (rt' == rt || Deliveries(rt'.chain) == [command])
  {
    var rt' := Step(rt, Submit(command)).0;
    StepConsistent(rt, Submit(command));
    if rt' != rt {
      assert rt'.chain[..|rt'.chain| - 1] == rt.chain;
    }
  }

  /** The one step that commits a delivery: the hash committed is the hash the record holds. */
  lemma DeliverySubmitted(w: World, tid: nat, command: Command<Payload>)
    requires Inv(w) && tid in w.threads && w.threads[tid] == DeliverSubmit(command)
    requires Step(w.rt, Submit(command)).1.Applied?
    ensures var w1 := w.(rt := Step(w.rt, Submit(command)).0); Inv(Put(w1, tid, DeliverObserve(Read(w1))))
  {
    ThreadFact(w, tid);
    DeliveryStep(w.rt, command);
    LinksGrow(w, Step(w.rt, Submit(command)).0, Submit(command));
    hide Inv, Step, ThreadOk, LinksOk, MovesOn, Consistent, Deliveries;
    CommittedInv(w, tid, command, Step(w.rt, Submit(command)).0);
  }

  lemma CommittedInv(w: World, tid: nat, command: Command<Payload>, rt: Machine<Payload>)
    requires Inv(w) && tid in w.threads && w.threads[tid] == DeliverSubmit(command)
    requires Consistent(rt) && MovesOn(w.rt, rt) && LinksOk(w.(rt := rt))
    requires Deliveries(rt.chain) == [command] || rt == w.rt
    ensures var w1 := w.(rt := rt); Inv(Put(w1, tid, DeliverObserve(Read(w1))))
  {
    hide WorldOk, ThreadsOk, Guarded, Grows, Deliveries;
    var w1 := w.(rt := rt);
    var t := DeliverObserve(Read(w1));
    var w' := Put(w1, tid, t);
    CommittedWorld(w, w', tid, command);
    DeliveredReading(w, w', tid);
    DeliveryMoves(w, w', tid, t);
  }

  lemma DeliveredReading(w: World, w': World, tid: nat)
    requires Inv(w) && tid in w.threads && w.threads[tid].IsDelivery() && MovesOn(w.rt, w'.rt) && Consistent(w'.rt)
    requires w'.given == w.given
    ensures ThreadOk(w', DeliverObserve(Read(w')))
  {
    ThreadFact(w, tid);
    WasNow(w'.rt);
    hide Inv, Consistent, Path;
  }

  lemma CommittedWorld(w: World, w': World, tid: nat, command: Command<Payload>)
    requires Inv(w) && tid in w.threads && w.threads[tid] == DeliverSubmit(command)
    requires Consistent(w'.rt) && MovesOn(w.rt, w'.rt) && LinksOk(w')
    requires Deliveries(w'.rt.chain) == [command] || w'.rt == w.rt
    requires w' == Put(w.(rt := w'.rt), tid, DeliverObserve(Read(w')))
    ensures WorldOk(w') && Grows(w, w')
  {
    hide Guarded, SignedOk, Deliveries, Path;
    ThreadFact(w, tid);
    assert Grows(w, w');
    forall x | x in w'.signed ensures SignedOk(w', x) { GrowsSigned(w, w', x); }
    if w.rec.Some? { GrowsShown(w, w', w.rec.value.runtimeState); }
  }

  lemma AcceptanceSubmitted(w: World, tid: nat)
    requires Inv(w) && tid in w.threads && w.threads[tid] == CsSubmit && w.rt.state == PROPOSED
    ensures var w1 := w.(rt := Step(w.rt, Countersigned).0); Inv(Put(w1, tid, ObserveReply(Read(w1))))
  {
    var w1 := w.(rt := Step(w.rt, Countersigned).0);
    RuntimeInv(w, Countersigned, w.bps);
    assert w1 == w.(rt := Step(w.rt, Countersigned).0, bps := w.bps);
    Advance(w1, tid, ObserveReply(Read(w1)));
  }

  lemma RejectionSubmitted(w: World, tid: nat, command: Command<Payload>)
    requires Inv(w) && tid in w.threads && w.threads[tid] == RejectionSubmit(command)
    ensures var w1 := w.(rt := Step(w.rt, Submit(command)).0); Inv(Put(w1, tid, ObserveReply(Read(w1))))
  {
    hide Inv, Step, Read, ThreadOk;
    ThreadFact(w, tid);
    AnswerHarmless(w, command);
    var w1 := w.(rt := Step(w.rt, Submit(command)).0);
    RuntimeInv(w, Submit(command), w.bps);
    assert w1 == w.(rt := Step(w.rt, Submit(command)).0, bps := w.bps);
    ReadingOk(w1);
    Advance(w1, tid, ObserveReply(Read(w1)));
  }

  /** The Runtime still is where its chain ends. */
  lemma WasNow(rt: Machine<Payload>)
    requires Consistent(rt)
    ensures rt.revision == |rt.chain| && rt.state == if rt.revision == 0 then PROPOSED else rt.chain[rt.revision - 1].to
  {
  }

  lemma AnswerHarmless(w: World, command: Command<Payload>)
    requires Inv(w) && ThreadOk(w, RejectionSubmit(command))
    ensures Harmless(w.rt, Submit(command)) && CommandSigned(w.signed, command)
  {
    WasNow(w.rt);
    hide Inv, Consistent, Path;
  }

  lemma ReadingOk(w: World)
    requires Inv(w)
    ensures ThreadOk(w, ObserveReply(Read(w)))
  {
    ReadIsSnapshot(w);
  }

  /** A status read now is a snapshot, and FULFILLING read now means nothing was delivered. */
  lemma ReadIsSnapshot(w: World)
    requires Inv(w)
    ensures Snapshot(w, Read(w))
    ensures Read(w).state == FULFILLING ==> Committed(w) == []
  {
    PathCounts(w.rt.chain, w.rt.state);
    WasNow(w.rt);
    hide ThreadsOk, Guarded, SignaturesOk, Path, Deliveries;
  }

  lemma ServeInv(w: World, tid: nat, card: Card, context: FundingContext)
    requires Inv(w) && tid in w.threads
    ensures Inv(ServeThread(w, tid, w.threads[tid], card, context))
  {
    hide Inv;
    var t := w.threads[tid];
    if t.IsDelivery() { ServeDeliveryInv(w, tid, card, context); }
    else if t.RejectionSubmit? || t.CsSubmit? { ServeWriteInv(w, tid, card, context); }
    else { ServeReadInv(w, tid, card, context); }
  }

  lemma ServeReadInv(w: World, tid: nat, card: Card, context: FundingContext)
    requires Inv(w) && tid in w.threads && !w.threads[tid].IsDelivery()
    requires !w.threads[tid].RejectionSubmit? && !w.threads[tid].CsSubmit?
    ensures Inv(ServeThread(w, tid, w.threads[tid], card, context))
  {
    hide Inv, Read, Step, Put, ThreadOk;
    var t := w.threads[tid];
    if t.CsStatus? || t.CsCard? || t.NoteStatus? || t.FundRead? {
      ServeFormationInv(w, tid, card, context);
    } else {
      ReadReplyOk(w, tid);
      var st := Read(w);
      match t
      case FundSubmit => Advance(w, tid, ObserveReply(st));
      case RejectionStatus(kind, terms) => Advance(w, tid, RejectionReply(kind, terms, st));
      case RefreshStatus => Advance(w, tid, RefreshReply(st));
      case WatchStatus => Advance(w, tid, WatchReply(st));
      case _ =>
    }
  }

  lemma ReadReplyOk(w: World, tid: nat)
    requires Inv(w) && tid in w.threads
    ensures var t, st := w.threads[tid], Read(w);
      && ThreadOk(w, ObserveReply(st)) && ThreadOk(w, RefreshReply(st)) && ThreadOk(w, WatchReply(st))
      && (t.RejectionStatus? ==> ThreadOk(w, RejectionReply(t.kind, t.terms, st)))
      && (t.DeliverStatus? ==> ThreadOk(w, DeliverStatusReply(t.terms, st)))
      && (t.DeliverFunding? ==> ThreadOk(w, DeliverFunded(t.terms, t.st)))
      && (t.DeliverEvidence? ==> ThreadOk(w, DeliverRegistered(t.st)))
      && (t.DeliverProbe? ==> ThreadOk(w, DeliverProbeReply(st)))
  {
    hide Inv, Read, Snapshot;
    ThreadFact(w, tid);
    ReadIsSnapshot(w);
  }

  lemma ServeFormationInv(w: World, tid: nat, card: Card, context: FundingContext)
    requires Inv(w) && tid in w.threads
    requires w.threads[tid].CsStatus? || w.threads[tid].CsCard? || w.threads[tid].NoteStatus? ||
      w.threads[tid].FundRead?
    ensures Inv(ServeThread(w, tid, w.threads[tid], card, context))
  {
    hide Inv, Read, Put, ThreadOk;
    var t := w.threads[tid];
    var st := Read(w);
    FormationReplyOk(w, tid, card, context);
    match t
    case CsStatus(req) => Advance(w, tid, CsStatusReply(req, st));
    case CsCard(req, held) => Advance(w, tid, CsCardReply(req, held, card));
    case NoteStatus => Advance(w, tid, NoteStatusReply(st));
    case FundRead(accepted, terms) => Advance(w, tid, FundReply(accepted, terms, context));
  }

  lemma FormationReplyOk(w: World, tid: nat, card: Card, context: FundingContext)
    requires Inv(w) && tid in w.threads
    ensures var t, st := w.threads[tid], Read(w);
      && (t.CsStatus? ==> ThreadOk(w, CsStatusReply(t.req, st)))
      && (t.CsCard? ==> ThreadOk(w, CsCardReply(t.req, t.st, card)))
      && (t.NoteStatus? ==> ThreadOk(w, NoteStatusReply(st)))
      && (t.FundRead? ==> ThreadOk(w, FundReply(t.accepted, t.terms, context)))
  {
    hide Inv, Read, Snapshot;
    ThreadFact(w, tid);
    ReadIsSnapshot(w);
  }

  lemma ServeWriteInv(w: World, tid: nat, card: Card, context: FundingContext)
    requires Inv(w) && tid in w.threads && (w.threads[tid].RejectionSubmit? || w.threads[tid].CsSubmit?)
    ensures Inv(ServeThread(w, tid, w.threads[tid], card, context))
  {
    hide Inv, Read, Step;
    match w.threads[tid]
    case CsSubmit =>
      if w.rt.state == PROPOSED { AcceptanceSubmitted(w, tid); } else { BystanderGoes(w, tid); }
    case RejectionSubmit(command) =>
      if Step(w.rt, Submit(command)).1.Applied? { RejectionSubmitted(w, tid, command); } else { BystanderGoes(w, tid); }
  }

  lemma ServeDeliveryInv(w: World, tid: nat, card: Card, context: FundingContext)
    requires Inv(w) && tid in w.threads && w.threads[tid].IsDelivery()
    ensures Inv(ServeThread(w, tid, w.threads[tid], card, context))
  {
    hide Inv, Read, Step, Put, ThreadOk;
    if w.threads[tid].DeliverSubmit? {
      ServeDeliveredInv(w, tid, card, context);
    } else {
      ReadReplyOk(w, tid);
      var st := Read(w);
      match w.threads[tid]
      case DeliverStatus(terms) => Advance(w, tid, DeliverStatusReply(terms, st));
      case DeliverFunding(terms, held) => Advance(w, tid, DeliverFunded(terms, held));
      case DeliverEvidence(held) => Advance(w, tid, DeliverRegistered(held));
      case DeliverProbe => Advance(w, tid, DeliverProbeReply(st));
      case _ =>
    }
  }

  lemma ServeDeliveredInv(w: World, tid: nat, card: Card, context: FundingContext)
    requires Inv(w) && tid in w.threads && w.threads[tid].DeliverSubmit?
    ensures Inv(ServeThread(w, tid, w.threads[tid], card, context))
  {
    hide Inv, Read, Step;
    ThreadFact(w, tid);
    var command := w.threads[tid].command;
    var reply := Step(w.rt, Submit(command)).1;
    if reply.Applied? { DeliverySubmitted(w, tid, command); }
    else if reply.code == RevisionConflict { Advance(w, tid, DeliverProbe); }
    else { DeliveryGoes(w, tid); }
  }

  // ------------------------------------------------------------------ every step

  lemma FailInv(w: World, tid: nat, final: bool, expired: bool)
    requires Inv(w) && tid in w.threads
    ensures Inv(FailThread(w, tid, w.threads[tid], final, expired))
  {
    var t := w.threads[tid];
    if t.IsWatcher() {
      if !t.WatchDecide? { Advance(w, tid, WatchSleep); }
    } else if t.IsDelivery() {
      if t.DeliverProbe? || t.DeliverProbeReply? { DeliverPauseInv(w, tid, expired); }
      else if t.DeliverSleep? || t.DeliverMinted? {}
      else if final { DeliveryGoes(w, tid); }
      else { Advance(w, tid, DeliverProbe); }
    } else {
      BystanderGoes(w, tid);
    }
  }

  lemma ResumeInv(w: World, l: Label)
    requires Inv(w) && l.Resume? && l.tid in w.threads
    ensures Inv(ResumeThread(w, w.threads[l.tid], l))
  {
    hide Inv, ThreadOk;
    var t := w.threads[l.tid];
    match t
    case CsStatusReply(req, st) => CsCheckInv(w, l.tid, req, st);
    case CsCardReply(req, st, card) => CsAcceptInv(w, l.tid, req, st, card, l.v);
    case NoteStatusReply(st) => NoteDoneInv(w, l.tid, st, l.active);
    case FundReply(accepted, terms, context) => FundSignInv(w, l.tid, accepted, terms, context);
    case RejectionReply(kind, terms, st) => RejectionSignInv(w, l.tid, kind, terms, st, l.id);
    case RefreshReply(st) => RefreshDoneInv(w, l.tid, st);
    case ObserveReply(st) => ObserveDoneInv(w, l.tid, st);
    case WatchReply(st) => WatchDoneInv(w, l.tid, st);
    case WatchDecide(state) => WatchNextInv(w, l.tid, state);
    case WatchSleep => WakeInv(w, l.tid, l.active);
    case DeliverStatusReply(terms, st) => DeliverCheckInv(w, l.tid, terms, st, l.anchored, l.domain);
    case DeliverFunded(terms, st) => FundedFacts(w, l.tid); DeliverPrepareInv(w, l.tid, st);
    case DeliverGenerating(oid, contract, st) => DeliverMintInv(w, l.tid, oid, contract, st, l.token, l.csv, l.rest);
    case DeliverMinted(st) => DeliverWatchInv(w, l.tid, st);
    case DeliverRegistered(st) => DeliverCommandInv(w, l.tid, st, l.id);
    case DeliverObserve(st) => DeliverDoneInv(w, l.tid, st);
    case DeliverProbeReply(st) => DeliverProbedInv(w, l.tid, st, l.expired);
    case DeliverSleep => WakeInv(w, l.tid, l.active);
    case _ =>
  }

  lemma FundedFacts(w: World, tid: nat)
    requires Inv(w) && tid in w.threads && w.threads[tid].DeliverFunded?
    ensures Ready(w, w.threads[tid].st)
  {
    ThreadFact(w, tid);
  }

  /** A pause is over. */
  lemma WakeInv(w: World, tid: nat, active: bool)
    requires Inv(w) && tid in w.threads
    ensures w.threads[tid].WatchSleep? ==> Inv(Put(w, tid, WatchStatus))
    ensures w.threads[tid].DeliverSleep? ==> Inv(Put(Gated(w, active), tid, DeliverStart(w, active)))
  {
    hide Inv, ThreadOk, DeliverStart;
    AwakeOk(w, tid, active);
    if w.threads[tid].WatchSleep? { Advance(w, tid, WatchStatus); }
    if w.threads[tid].DeliverSleep? {
      GivenInv(w, w.given.(gate := w.given.gate || active));
      Advance(Gated(w, active), tid, DeliverStart(w, active));
    }
  }

  lemma AwakeOk(w: World, tid: nat, active: bool)
    requires Inv(w) && tid in w.threads
    ensures ThreadOk(w, WatchStatus) && DeliverStart(w, active).IsDelivery()
    ensures w.threads[tid].DeliverSleep? ==> ThreadOk(Gated(w, active), DeliverStart(w, active))
  {
    hide Inv;
    WorldFacts(w);
    ThreadFact(w, tid);
  }

  lemma PruneInv(w: World)
    requires Inv(w) && w.rec.Some? && Reclaimable(w.rec.value)
    ensures Inv(w.(rec := None))
  {
    var w' := w.(rec := None);
    assert Keeps(w, w');
    forall s | s in w'.signed ensures SignedOk(w', s) { GrowsSigned(w, w', s); }
    forall i | i in w'.threads
      ensures i < w'.nextTid && ThreadOk(w', w'.threads[i])
    {
      KeepsThread(w, w', w.threads[i]);
    }
    assert Guarded(w') by { SameThreads(w, w'); }
  }

  /** A caller starts a coroutine. */
  lemma StartsInv(w: World, l: Label)
    requires Inv(w)
    requires l.StartCountersign? || l.StartNotification? || l.StartFunding? || l.StartRejection? || l.StartRefresh?
    ensures Inv(Next(w, l))
  {
    hide Inv, VerifiedBuyer;
    WorldFacts(w);
    match l
    case StartCountersign(req) => RequestStarts(w, req);
    case StartNotification(names) => NotificationStarts(w, names);
    case StartFunding =>
      if w.dealTerms.Some? && w.rec.Some? { BystanderComes(w, FundRead(w.rec.value.contract, w.dealTerms.value)); }
    case StartRejection(kind) => RejectionStarts(w, kind);
    case StartRefresh => BystanderComes(w, RefreshStatus);
  }

  lemma RequestStarts(w: World, req: CountersignRequest)
    requires Inv(w)
    ensures Inv(Next(w, StartCountersign(req)))
  {
    hide Inv;
    var given := w.given.(requests := w.given.requests + {req});
    GivenInv(w, given);
    BystanderComes(w.(given := given), CsStatus(req));
  }

  lemma NotificationStarts(w: World, names: Option<Digest>)
    requires Inv(w)
    ensures Inv(Next(w, StartNotification(names)))
  {
    hide Inv;
    if Next(w, StartNotification(names)) != w {
      GivenInv(w, w.given.(notified := true));
      BystanderComes(w.(given := w.given.(notified := true)), NoteStatus);
    }
  }

  lemma RejectionStarts(w: World, kind: CommandType)
    requires Inv(w)
    ensures Inv(Next(w, StartRejection(kind)))
  {
    hide Inv;
    WorldFacts(w);
    if w.dealTerms.Some? && kind in {Appealed, RefundConsented} {
      var given := w.given.(asked := w.given.asked + {kind});
      GivenInv(w, given);
      BystanderComes(w.(given := given), RejectionStatus(kind, w.dealTerms.value));
    }
  }

  lemma NextInv(w: World, l: Label)
    requires Inv(w)
    ensures Inv(Next(w, l))
  {
    hide Inv, Read, Step, ServeThread, FailThread, ResumeThread, ThreadOk;
    match l
    case RuntimeMoves(i) =>
      if OthersMay(i) { RuntimeInv(w, i, MoveRuntime(w, i).bps); }
    case Prune => if w.rec.Some? && Reclaimable(w.rec.value) { PruneInv(w); }
    case Serve(tid, card, context) => if tid in w.threads { ServeInv(w, tid, card, context); }
    case Fail(tid, final, expired) => if tid in w.threads { FailInv(w, tid, final, expired); }
    case Resume(tid, _, _, _, _, _, _, _, _, _) => if tid in w.threads { ResumeInv(w, l); }
    case _ => StartsInv(w, l);
  }

  /** The invariant holds after every run, from the Runtime's proposal on. */
  lemma {:induction false} RunInv(w: World, labels: seq<Label>)
    requires Inv(w)
    ensures Inv(Live.Run(w, labels))
    decreases |labels|
  {
    if labels != [] {
      NextInv(w, labels[0]);
      RunInv(Next(w, labels[0]), labels[1..]);
    }
  }

  lemma StartInv(seller: Seller, dealId: Text, terms: Terms)
    ensures Inv(Start(seller, dealId, terms))
  {
  }
}
