/**
 What one step may change of the record's artifact, of the watcher and of the Runtime, and what follows over a
 run: which token is held, who watches it, what a refund took away, and whether a delivered record was lost.
 */
module LiveHistory {
  import opened Sorting
  import opened Extension
  import opened Agreement
  import opened Live
  import opened LiveSafety
  import opened LiveSteps
  import Settlement

  // ------------------------------------------------------------------ the effect of a step

  /** The few steps that matter to what is served; every other step is calm. */
  datatype Effect =
    | Calm
    | Forgets                             // the record is reclaimed
    | Mints                               // the record gets a token
    | Applies(st: Status)                 // a refresh applies what it read
    | Joins                               // the delivery starts a watcher, or finds one running
    | Leaves                              // the watcher leaves after a terminal state
    | Submits(command: Command<Payload>)  // the Runtime handles the delivery

  function EffectOf(w: World, l: Label): Effect {
    match l
    case Prune => if w.rec.Some? && Reclaimable(w.rec.value) then Forgets else Calm
    case Serve(tid, _, _) =>
      if tid in w.threads && w.threads[tid].DeliverSubmit? then Submits(w.threads[tid].command) else Calm
    case Resume(tid, _, _, _, _, _, _, _, _, _) => if tid in w.threads then SegmentEffect(w, w.threads[tid]) else Calm
    case _ => Calm
  }

  function SegmentEffect(w: World, t: Thread): Effect {
    match t
    case DeliverGenerating(oid, _, _) => if w.rec.Some? && w.rec.value.oid == oid then Mints else Calm
    case RefreshReply(st) => if w.rec.Some? then Applies(st) else Calm
    case WatchReply(st) => if w.rec.Some? then Applies(st) else Calm
    case WatchDecide(state) => if Terminal(state) then Leaves else Calm
    case DeliverMinted(_) => Joins
    case _ => Calm
  }

  // ------------------------------------------------------------------ what each effect may change

  predicate SameArtifact(r: Record, r': Record) { r'.token == r.token && r'.deliveryHash == r.deliveryHash }

  predicate RecordFramed(w: World, w': World, e: Effect) {
    match e
    case Forgets => w.rec.Some? && w'.rec.None? && w'.outcome == w.outcome
    case Mints =>
      w.rec.Some? && HasToken(w') && w'.rec.value.revoked == w.rec.value.revoked && w'.outcome == w.outcome
    case Applies(st) =>
      && w.rec.Some? && w'.rec.Some? && SameArtifact(w.rec.value, w'.rec.value)
      && w'.rec.value.revoked == (w.rec.value.revoked || Refund(st))
      && w'.outcome == (if Refund(st) then w.outcome.(refunded := true)
                        else if Terminal(st.state) then w.outcome.(kept := true)
                        else w.outcome)
    case _ =>
      && w'.outcome == w.outcome
      && if w.rec.Some?
         then w'.rec.Some? && SameArtifact(w.rec.value, w'.rec.value) && w'.rec.value.revoked == w.rec.value.revoked
         else w'.rec.Some? ==> w'.rec.value.token.None? && w'.rec.value.deliveryHash.None? && !w'.rec.value.revoked
  }

  ghost predicate AtWatchPoint(w: World) { exists i :: i in w.threads && w.threads[i].DeliverMinted? }

  ghost predicate WatchFramed(w: World, w': World, e: Effect) {
    && w'.watching == (e.Joins? || (w.watching && !e.Leaves?))
    && (e.Mints? ==> AtWatchPoint(w'))
    && (!e.Joins? && AtWatchPoint(w) ==> AtWatchPoint(w'))
  }

  /** A new delivery command carries the record's hash, a new outcome reply what the Runtime says now. */
  predicate FreshThread(w: World, t: Thread) {
    match t
    case DeliverSubmit(command) =>
      w.rec.Some? && w.rec.value.deliveryHash.Some? && w.rec.value.deliveryHash == command.payload.deliveryHash
    case RefreshReply(st) => st == Read(w)
    case WatchReply(st) => st == Read(w)
    case _ => true
  }

  ghost predicate ThreadsFramed(w: World, w': World) {
    forall i :: i in w'.threads ==> (i in w.threads && w'.threads[i] == w.threads[i]) || FreshThread(w', w'.threads[i])
  }

  predicate RuntimeFramed(w: World, w': World, e: Effect) {
    && (Terminal(w.rt.state) ==> w'.rt.state == w.rt.state && w'.bps == w.bps)
    && (Committed(w') == Committed(w) || (e.Submits? && Committed(w) == [] && Committed(w') == [e.command]))
  }

  /** The deal stays the deal, and a late countersign is never forgotten. */
  predicate SameDeal(w: World, w': World) {
    w'.seller == w.seller && w'.dealId == w.dealId && w'.terms == w.terms && (w.stale ==> w'.stale)
  }

  ghost predicate Framed(w: World, w': World, e: Effect) {
    SameDeal(w, w') && RecordFramed(w, w', e) && WatchFramed(w, w', e) && ThreadsFramed(w, w') &&
      RuntimeFramed(w, w', e)
  }

  /** A frame that leaves the Runtime alone. */
  ghost predicate Segment(w: World, w': World, e: Effect) {
    && SameDeal(w, w') && RecordFramed(w, w', e) && WatchFramed(w, w', e) && ThreadsFramed(w, w')
    && w'.rt == w.rt && w'.bps == w.bps
  }

  lemma SegmentFramed(w: World, w': World, e: Effect)
    requires Segment(w, w', e)
    ensures Framed(w, w', e)
  {
    hide RecordFramed, WatchFramed, ThreadsFramed, Deliveries;
  }

  // ------------------------------------------------------------------ the thread that moves

  /** One thread that is not at the watch point gives way to another, or to none; another may start. */
  lemma Moved(w: World, w': World, tid: nat)
    requires tid in w.threads && !w.threads[tid].DeliverMinted? && w'.watching == w.watching
    requires forall i :: i in w.threads && i != tid ==> i in w'.threads && w'.threads[i] == w.threads[i]
    requires forall i :: i in w'.threads && (i !in w.threads || i == tid) ==> FreshThread(w', w'.threads[i])
    ensures ThreadsFramed(w, w') && WatchFramed(w, w', Calm)
  {
    hide FreshThread;
    if AtWatchPoint(w) {
      var i :| i in w.threads && w.threads[i].DeliverMinted?;
      assert i in w'.threads && w'.threads[i].DeliverMinted?;
    }
  }

  lemma PutSegment(w: World, tid: nat, t: Thread)
    requires tid in w.threads && !w.threads[tid].DeliverMinted? && FreshThread(w, t)
    ensures Segment(w, Put(w, tid, t), Calm)
  {
    Moved(w, Put(w, tid, t), tid);
    hide WatchFramed, ThreadsFramed;
  }

  lemma EndSegment(w: World, tid: nat)
    requires tid in w.threads && !w.threads[tid].DeliverMinted?
    ensures Segment(w, End(w, tid), Calm) && Segment(w, DeliverEnd(w, tid), Calm)
  {
    Moved(w, End(w, tid), tid);
    Moved(w, DeliverEnd(w, tid), tid);
    hide WatchFramed, ThreadsFramed;
  }

  /** What a segment does to the record, the log and the flags, before its thread moves. */
  lemma TouchedSegment(w: World, w1: World, w': World, e: Effect)
    requires Segment(w1, w', Calm) && (e.Calm? || e.Applies?)
    requires SameDeal(w, w1) && RecordFramed(w, w1, e) && w1.rt == w.rt && w1.bps == w.bps
    requires w1.threads == w.threads && w1.watching == w.watching
    ensures Segment(w, w', e)
  {
    hide FreshThread;
  }

  lemma ObservedSegment(w: World, st: Status, w': World)
    requires w.rec.Some? && Segment(Observed(w, st), w', Calm)
    ensures Segment(w, w', Calm)
  {
    TouchedSegment(w, Observed(w, st), w', Calm);
  }

  lemma SignedSegment(w: World, s: Signed, w': World)
    requires Segment(Sign(w, s), w', Calm)
    ensures Segment(w, w', Calm)
  {
    TouchedSegment(w, Sign(w, s), w', Calm);
  }

  lemma GivenSegment(w: World, given: Given, w': World)
    requires Segment(w.(given := given), w', Calm)
    ensures Segment(w, w', Calm)
  {
    TouchedSegment(w, w.(given := given), w', Calm);
  }

  lemma SpawnSegment(w: World, t: Thread)
    requires w.nextTid !in w.threads && FreshThread(w, t)
    ensures Segment(w, Spawn(w, t), Calm)
  {
    var w' := Spawn(w, t);
    if AtWatchPoint(w) {
      var i :| i in w.threads && w.threads[i].DeliverMinted?;
      assert i in w'.threads && w'.threads[i].DeliverMinted?;
    }
  }

  // ------------------------------------------------------------------ every segment

  lemma CsAcceptSegment(w: World, tid: nat, req: CountersignRequest, st: Status, card: Card, v: Validation)
    requires tid in w.threads && w.threads[tid] == CsCardReply(req, st, card)
    ensures Segment(w, CsAccept(w, tid, req, st, card, v), Calm)
  {
    var w' := CsAccept(w, tid, req, st, card, v);
    var w1 := w'.(threads := w.threads);
    CsAcceptRecord(w, tid, req, st, card, v);
    hide CsAccept, Segment, RecordFramed;
    if tid in w'.threads { PutSegment(w1, tid, CsSubmit); } else { EndSegment(w1, tid); }
    TouchedSegment(w, w1, w', Calm);
  }

  lemma CsAcceptRecord(w: World, tid: nat, req: CountersignRequest, st: Status, card: Card, v: Validation)
    requires tid in w.threads
    ensures var w' := CsAccept(w, tid, req, st, card, v);
      && SameDeal(w, w') && RecordFramed(w, w', Calm) && w'.rt == w.rt && w'.bps == w.bps && w'.watching == w.watching
      && w'.threads == if tid in w'.threads then w.threads[tid := CsSubmit] else w.threads - {tid}
  {
    var w1 := Registered(w, tid, req, st);
    RegisteredRecord(w, tid, req, st);
    var chainId := ValidateRuntimeCard(card, req.contract.terms);
    NothingTouched(w, tid);
    hide AcceptTerms, ValidateRuntimeCard, Registered, RecordFramed, SameDeal, Sign, Countersign;
    if chainId.Some? {
      var buyer := w1.rec.value.buyer;
      var accepted := AcceptTerms(w.seller, w.dealId, req.contract, buyer, req.buyerAgreementSig, chainId.value, v);
      if accepted.Some? {
        AcceptedRecord(w, w1, accepted.value, Acceptance(req.contract, buyer, req.buyerAgreementSig, card, v),
          SignedAgreement(req, chainId.value, w1.rec.value.oid, st.revision));
        assert (w.threads - {tid})[tid := CsSubmit] == w.threads[tid := CsSubmit];
      }
    }
  }

  lemma NothingTouched(w: World, tid: nat)
    ensures SameDeal(w, End(w, tid)) && RecordFramed(w, End(w, tid), Calm)
  {
  }

  lemma RegisteredRecord(w: World, tid: nat, req: CountersignRequest, st: Status)
    ensures var w1 := Registered(w, tid, req, st);
      && SameDeal(w, w1) && RecordFramed(w, w1, Calm) && w1.rt == w.rt && w1.bps == w.bps && w1.watching == w.watching
      && w1.threads == w.threads - {tid} && w1.signed == w.signed && w1.rec.Some?
  {
  }

  /** Countersigning rewrites contract and state of the registered record. */
  lemma AcceptedRecord(w: World, w1: World, accepted: Contract, a: Acceptance, s: Signed)
    requires SameDeal(w, w1) && RecordFramed(w, w1, Calm) && w1.rec.Some?
    ensures var w2 := Sign(Countersign(w1, accepted, a), s);
      && SameDeal(w, w2) && RecordFramed(w, w2, Calm)
      && w2.rt == w1.rt && w2.bps == w1.bps && w2.watching == w1.watching && w2.threads == w1.threads
      && forall tid :: SameDeal(w, Put(w2, tid, CsSubmit)) && RecordFramed(w, Put(w2, tid, CsSubmit), Calm)
  {
  }

  lemma NoteDoneSegment(w: World, tid: nat, st: Status, active: bool)
    requires ThreadsOk(w) && tid in w.threads && w.threads[tid] == NoteStatusReply(st)
    ensures Segment(w, NoteDone(w, tid, st, active), Calm)
  {
    hide Segment, ThreadOk, DeliverStart;
    EndSegment(w, tid);
    if st.state == FULFILLING && w.rec.Some? {
      var w1 := Observed(w, st);
      EndSegment(w1, tid);
      var w2 := Gated(w1, active);
      var t := DeliverStart(Observed(End(w, tid), st), active);
      DeliveryIsFresh(w2, Observed(End(w, tid), st), active);
      if !w.delivering {
        TaskStarts(w2, tid, t);
        GivenSegment(w1, w2.given, Spawn(End(w2, tid).(delivering := true), t));
      }
      assert NoteDone(w, tid, st, active) ==
        if w.delivering then End(w1, tid) else Spawn(End(w2, tid).(delivering := true), t);
      ObservedSegment(w, st, NoteDone(w, tid, st, active));
    }
  }

  lemma DeliveryIsFresh(w: World, w1: World, active: bool)
    ensures FreshThread(w, DeliverStart(w1, active))
  {
  }

  lemma TaskStarts(w: World, tid: nat, t: Thread)
    requires tid in w.threads && !w.threads[tid].DeliverMinted? && w.nextTid !in w.threads && FreshThread(w, t)
    ensures Segment(w, Spawn(End(w, tid).(delivering := true), t), Calm)
  {
    hide FreshThread;
    var w' := Spawn(End(w, tid).(delivering := true), t);
    assert FreshThread(w', t) by { SameFreshness(w, w', t); }
    Moved(w, w', tid);
    hide WatchFramed, ThreadsFramed;
  }

  lemma SameFreshness(w: World, w': World, t: Thread)
    requires w'.rec == w.rec && w'.rt == w.rt && w'.terms == w.terms && w'.bps == w.bps
    ensures FreshThread(w, t) <==> FreshThread(w', t)
  {
  }

  lemma FundSignSegment(w: World, tid: nat, accepted: Contract, terms: Digest, context: FundingContext)
    requires tid in w.threads && w.threads[tid] == FundReply(accepted, terms, context)
    ensures Segment(w, FundSign(w, tid, accepted, terms, context), Calm)
  {
    hide Settlement.UsdcBaseUnits, Segment;
    EndSegment(w, tid);
    if FundSign(w, tid, accepted, terms, context) != End(w, tid) {
      var s := SignedActivation(context, w.rec.value);
      PutSegment(Sign(w, s), tid, FundSubmit);
      SignedSegment(w, s, Put(Sign(w, s), tid, FundSubmit));
    }
  }

  lemma RejectionSignSegment(w: World, tid: nat, kind: CommandType, terms: Digest, st: Status, id: nat)
    requires tid in w.threads && w.threads[tid] == RejectionReply(kind, terms, st)
    ensures Segment(w, RejectionSign(w, tid, kind, terms, st, id), Calm)
  {
    hide Segment;
    EndSegment(w, tid);
    if w.rec.Some? {
      var w1 := Observed(w, st);
      var w' := RejectionSign(w, tid, kind, terms, st, id);
      EndSegment(w1, tid);
      if st.state == REJECTED {
        var s := SignedRejectionAnswer(kind, terms, st.revision);
        var command := Command(id, kind, Actor.Seller, st.revision, Payload(terms, None, 0));
        PutSegment(Sign(w1, s), tid, RejectionSubmit(command));
        SignedSegment(w1, s, w');
      }
      ObservedSegment(w, st, w');
    }
  }

  lemma ObserveDoneSegment(w: World, tid: nat, st: Status)
    requires tid in w.threads && !w.threads[tid].DeliverMinted?
    ensures Segment(w, ObserveDone(w, tid, st), Calm) && Segment(w, DeliverDone(w, tid, st), Calm)
  {
    hide Segment;
    EndSegment(w, tid);
    PutSegment(w, tid, DeliverProbe);
    if w.rec.Some? {
      EndSegment(Observed(w, st), tid);
      assert ObserveDone(w, tid, st) == End(Observed(w, st), tid) &&
        DeliverDone(w, tid, st) == DeliverEnd(Observed(w, st), tid);
      ObservedSegment(w, st, ObserveDone(w, tid, st));
      ObservedSegment(w, st, DeliverDone(w, tid, st));
    }
  }

  lemma RefreshSegment(w: World, tid: nat, st: Status)
    requires tid in w.threads && !w.threads[tid].DeliverMinted?
    ensures var e := if w.rec.Some? then Applies(st) else Calm;
      Segment(w, RefreshDone(w, tid, st), e) && Segment(w, WatchDone(w, tid, st), e)
  {
    hide Segment, RecordFramed;
    EndSegment(w, tid);
    PutSegment(w, tid, WatchSleep);
    if w.rec.Some? {
      var w1 := Refreshed(w, st);
      RefreshedRecord(w, st);
      EndSegment(w1, tid);
      PutSegment(w1, tid, WatchDecide(st.state));
      RefreshedFirst(w, tid, st);
      TouchedSegment(w, w1, RefreshDone(w, tid, st), Applies(st));
      TouchedSegment(w, w1, WatchDone(w, tid, st), Applies(st));
    }
  }

  lemma RefreshedFirst(w: World, tid: nat, st: Status)
    requires w.rec.Some?
    ensures RefreshDone(w, tid, st) == End(Refreshed(w, st), tid)
  {
    hide Refund, Terminal;
    var w1 := Observed(End(w, tid), st);
    assert w1 == End(Observed(w, st), tid);
  }

  lemma RefreshedRecord(w: World, st: Status)
    requires w.rec.Some?
    ensures var w1 := Refreshed(w, st);
      && SameDeal(w, w1) && RecordFramed(w, w1, Applies(st)) && w1.rt == w.rt && w1.bps == w.bps
      && w1.threads == w.threads && w1.watching == w.watching
  {
  }

  lemma WatchNextSegment(w: World, tid: nat, state: State)
    requires tid in w.threads && w.threads[tid] == WatchDecide(state)
    ensures Segment(w, WatchNext(w, tid, state), if Terminal(state) then Leaves else Calm)
  {
    if Terminal(state) {
      Moved(w, End(w, tid), tid);
    } else {
      PutSegment(w, tid, WatchSleep);
    }
  }

  lemma DeliverPrepareSegment(w: World, tid: nat, st: Status)
    requires tid in w.threads && !w.threads[tid].DeliverMinted?
    ensures Segment(w, DeliverPrepare(w, tid, st), Calm)
  {
    hide Segment;
    PutSegment(w, tid, DeliverProbe);
    if w.rec.Some? { PutSegment(w, tid, DeliverGenerating(w.rec.value.oid, w.rec.value.contract, st)); }
  }

  lemma DeliverCheckSegment(w: World, tid: nat, terms: Digest, st: Status, anchored: bool, domain: bool)
    requires tid in w.threads && w.threads[tid] == DeliverStatusReply(terms, st)
    ensures Segment(w, DeliverCheck(w, tid, terms, st, anchored, domain), Calm)
  {
    hide Segment;
    PutSegment(w, tid, DeliverProbe);
    if w.rec.Some? {
      var w1 := Observed(w, st);
      var w2 := w1.(given := w1.given.(anchors := true));
      PutSegment(w1, tid, DeliverProbe);
      PutSegment(w2, tid, DeliverFunding(terms, st));
      DeliverPrepareSegment(w2, tid, st);
      hide DeliverPrepare, Put;
      var w' := DeliverCheck(w, tid, terms, st, anchored, domain);
      if st.state == FULFILLING && anchored { GivenSegment(w1, w2.given, w'); }
      ObservedSegment(w, st, w');
    }
  }

  lemma DeliverMintSegment(
      w: World, tid: nat, oid: nat, contract: Contract, st: Status, token: nat, csv: Text, rest: Text)
    requires tid in w.threads && w.threads[tid] == DeliverGenerating(oid, contract, st)
    ensures Segment(w, DeliverMint(w, tid, oid, contract, st, token, csv, rest),
                    if w.rec.Some? && w.rec.value.oid == oid then Mints else Calm)
  {
    hide Segment;
    PutSegment(w, tid, DeliverProbe);
    if w.rec.Some? {
      var manifest := Manifest(OfBytes(csv), token, rest);
      var s := SignedEvidence(TermsHashOf(contract), OfManifest(manifest), st.revision);
      PutSegment(Sign(w, s), tid, DeliverMinted(st));
      SignedSegment(w, s, Put(Sign(w, s), tid, DeliverMinted(st)));
      if w.rec.value.oid == oid { MintedSegment(w, tid, oid, contract, st, token, csv, rest); }
    }
  }

  lemma MintedSegment(w: World, tid: nat, oid: nat, contract: Contract, st: Status, token: nat, csv: Text, rest: Text)
    requires tid in w.threads && w.threads[tid] == DeliverGenerating(oid, contract, st)
    requires w.rec.Some? && w.rec.value.oid == oid
    ensures Segment(w, DeliverMint(w, tid, oid, contract, st, token, csv, rest), Mints)
  {
    var w' := DeliverMint(w, tid, oid, contract, st, token, csv, rest);
    assert w'.threads == w.threads[tid := DeliverMinted(st)];
    Moved(w, w', tid);
    assert AtWatchPoint(w') by { assert w'.threads[tid].DeliverMinted?; }
    hide ThreadsFramed, AtWatchPoint;
  }

  lemma DeliverWatchSegment(w: World, tid: nat, st: Status)
    requires ThreadsOk(w) && tid in w.threads && w.threads[tid] == DeliverMinted(st)
    ensures Segment(w, DeliverWatch(w, tid, st), Joins)
  {
    hide ThreadOk, AtWatchPoint;
  }

  lemma DeliverCommandSegment(w: World, tid: nat, st: Status, id: nat)
    requires tid in w.threads && w.threads[tid] == DeliverRegistered(st)
    ensures Segment(w, DeliverCommand(w, tid, st, id), Calm)
  {
    hide Segment;
    PutSegment(w, tid, DeliverProbe);
    if w.rec.Some? && w.rec.value.deliveryHash.Some? {
      var terms := TermsHashOf(w.rec.value.contract);
      var s := SignedDelivery(terms, w.rec.value.deliveryHash.value, st.revision);
      var command := Command(id, Delivered, Actor.Seller, st.revision, Payload(terms, w.rec.value.deliveryHash, 0));
      PutSegment(Sign(w, s), tid, DeliverSubmit(command));
      SignedSegment(w, s, DeliverCommand(w, tid, st, id));
    }
  }

  lemma DeliverPauseSegment(w: World, tid: nat, expired: bool)
    requires tid in w.threads && !w.threads[tid].DeliverMinted?
    ensures Segment(w, DeliverPause(w, tid, expired), Calm)
  {
    hide Segment;
    EndSegment(w, tid);
    PutSegment(w, tid, DeliverSleep);
  }

  lemma DeliverProbedSegment(w: World, tid: nat, st: Status, expired: bool)
    requires tid in w.threads && w.threads[tid] == DeliverProbeReply(st)
    ensures Segment(w, DeliverProbed(w, tid, st, expired), Calm)
  {
    hide Segment;
    DeliverPauseSegment(w, tid, expired);
    if w.rec.Some? {
      EndSegment(Observed(w, st), tid);
      DeliverPauseSegment(Observed(w, st), tid, expired);
      ObservedSegment(w, st, DeliverProbed(w, tid, st, expired));
    }
  }

  lemma DeliverySegment(w: World, l: Label)
    requires ThreadsOk(w) && l.Resume? && l.tid in w.threads && w.threads[l.tid].IsDelivery()
    ensures Segment(w, ResumeThread(w, w.threads[l.tid], l), SegmentEffect(w, w.threads[l.tid]))
  {
    hide Segment, Put, DeliverCheck, DeliverMint, DeliverCommand, DeliverWatch, DeliverProbed, DeliverDone,
      DeliverPrepare;
    hide ThreadOk;
    var w' := ResumeThread(w, w.threads[l.tid], l);
    match w.threads[l.tid]
    case DeliverStatusReply(terms, st) => DeliverCheckSegment(w, l.tid, terms, st, l.anchored, l.domain);
    case DeliverFunded(terms, st) => DeliverPrepareSegment(w, l.tid, st);
    case DeliverGenerating(oid, contract, st) => DeliverMintSegment(w, l.tid, oid, contract, st, l.token, l.csv,
      l.rest);
    case DeliverMinted(st) => DeliverWatchSegment(w, l.tid, st);
    case DeliverRegistered(st) => DeliverCommandSegment(w, l.tid, st, l.id);
    case DeliverObserve(st) => ObserveDoneSegment(w, l.tid, st);
    case DeliverProbeReply(st) => DeliverProbedSegment(w, l.tid, st, l.expired);
    case DeliverSleep => WakeSegment(w, l.tid, l.active);
    case _ => IdleSegment(w);
  }

  lemma WakeSegment(w: World, tid: nat, active: bool)
    requires tid in w.threads && !w.threads[tid].DeliverMinted?
    ensures Segment(w, Put(Gated(w, active), tid, DeliverStart(w, active)), Calm)
  {
    hide Segment;
    var w1 := Gated(w, active);
    DeliveryIsFresh(w1, w, active);
    hide DeliverStart;
    PutSegment(w1, tid, DeliverStart(w, active));
    GivenSegment(w, w1.given, Put(w1, tid, DeliverStart(w, active)));
  }

  lemma IdleSegment(w: World)
    ensures Segment(w, w, Calm)
  {
  }

  lemma OtherSegment(w: World, l: Label)
    requires ThreadsOk(w) && l.Resume? && l.tid in w.threads && !w.threads[l.tid].IsDelivery()
    ensures Segment(w, ResumeThread(w, w.threads[l.tid], l), SegmentEffect(w, w.threads[l.tid]))
  {
    hide Segment, Put, CsCheck, CsAccept, FundSign, RejectionSign, WatchDone, RefreshDone, NoteDone, ObserveDone,
      WatchNext;
    hide ThreadOk;
    var w' := ResumeThread(w, w.threads[l.tid], l);
    match w.threads[l.tid]
    case CsStatusReply(req, st) => CsCheckSegment(w, l.tid, req, st);
    case CsCardReply(req, st, card) => CsAcceptSegment(w, l.tid, req, st, card, l.v);
    case NoteStatusReply(st) => NoteDoneSegment(w, l.tid, st, l.active);
    case FundReply(accepted, terms, context) => FundSignSegment(w, l.tid, accepted, terms, context);
    case RejectionReply(kind, terms, st) => RejectionSignSegment(w, l.tid, kind, terms, st, l.id);
    case RefreshReply(st) => RefreshSegment(w, l.tid, st);
    case ObserveReply(st) => ObserveDoneSegment(w, l.tid, st);
    case WatchReply(st) => RefreshSegment(w, l.tid, st);
    case WatchDecide(state) => WatchNextSegment(w, l.tid, state);
    case WatchSleep => PutSegment(w, l.tid, WatchStatus);
    case _ => IdleSegment(w);
  }

  lemma CsCheckSegment(w: World, tid: nat, req: CountersignRequest, st: Status)
    requires tid in w.threads && !w.threads[tid].DeliverMinted?
    ensures Segment(w, CsCheck(w, tid, req, st), Calm)
  {
    hide Segment;
    EndSegment(w, tid);
    PutSegment(w, tid, CsCard(req, st));
  }

  lemma FailSegment(w: World, tid: nat, final: bool, expired: bool)
    requires tid in w.threads
    ensures Segment(w, FailThread(w, tid, w.threads[tid], final, expired), Calm)
  {
    hide Segment;
    IdleSegment(w);
    if !w.threads[tid].DeliverMinted? {
      EndSegment(w, tid);
      PutSegment(w, tid, WatchSleep);
      PutSegment(w, tid, DeliverProbe);
      DeliverPauseSegment(w, tid, expired);
    }
  }

  // ------------------------------------------------------------------ the Runtime answers and moves

  lemma TerminalStep(rt: Machine<Payload>, i: Input<Payload>)
    requires Terminal(rt.state)
    ensures Step(rt, i).0.state == rt.state
  {
  }

  /** The Runtime moves by a step, and the thread that asked, if any, goes on. */
  lemma RuntimeMoved(w: World, w1: World, w': World, i: Input<Payload>, e: Effect)
    requires Segment(w1, w', Calm) && (e.Calm? || e.Submits?)
    requires w1 == w.(rt := Step(w.rt, i).0, bps := w1.bps) && (Terminal(w.rt.state) ==> w1.bps == w.bps)
    requires Committed(w1) == Committed(w) || (e.Submits? && Committed(w) == [] && Committed(w1) == [e.command])
    ensures Framed(w, w', e)
  {
    if Terminal(w.rt.state) { TerminalStep(w.rt, i); }
    hide Step, Deliveries, FreshThread;
    assert RecordFramed(w, w', e);
    assert WatchFramed(w, w', e);
  }

  lemma MoveFramed(w: World, i: Input<Payload>)
    requires Inv(w) && OthersMay(i)
    ensures Framed(w, MoveRuntime(w, i), Calm)
  {
    RuntimeStep(w.rt, i);
    if Terminal(w.rt.state) { TerminalStep(w.rt, i); }
    hide Step, Deliveries, Segment;
    IdleSegment(MoveRuntime(w, i));
    RuntimeMoved(w, MoveRuntime(w, i), MoveRuntime(w, i), i, Calm);
  }

  lemma AnswerFramed(w: World, tid: nat, card: Card, context: FundingContext)
    requires Inv(w) && tid in w.threads
    ensures Framed(w, ServeThread(w, tid, w.threads[tid], card, context), EffectOf(w, Serve(tid, card, context)))
  {
    hide Framed, Segment, Step, Put;
    var t := w.threads[tid];
    if t.CsSubmit? || t.RejectionSubmit? || t.DeliverSubmit? {
      WriteFramed(w, tid, card, context);
    } else {
      ReadFramed(w, tid, card, context);
    }
  }

  lemma ReadFramed(w: World, tid: nat, card: Card, context: FundingContext)
    requires tid in w.threads
    requires !(w.threads[tid].CsSubmit? || w.threads[tid].RejectionSubmit? || w.threads[tid].DeliverSubmit?)
    ensures Framed(w, ServeThread(w, tid, w.threads[tid], card, context), Calm)
  {
    var w' := ServeThread(w, tid, w.threads[tid], card, context);
    ReadReply(w, tid, card, context);
    hide Framed, Segment, ServeThread, FreshThread;
    if w' == w { IdleSegment(w); } else { PutSegment(w, tid, w'.threads[tid]); }
    SegmentFramed(w, w', Calm);
  }

  lemma ReadReply(w: World, tid: nat, card: Card, context: FundingContext)
    requires tid in w.threads
    requires !(w.threads[tid].CsSubmit? || w.threads[tid].RejectionSubmit? || w.threads[tid].DeliverSubmit?)
    ensures ReplyOnly(w, tid, ServeThread(w, tid, w.threads[tid], card, context))
  {
    hide Read;
    if w.threads[tid].IsDelivery() { DeliveryReply(w, tid, card, context); } else { OtherReply(w, tid, card, context); }
  }

  predicate ReplyOnly(w: World, tid: nat, w': World)
    requires tid in w.threads
  {
    w' == w || (!w.threads[tid].DeliverMinted? && tid in w'.threads && w' == Put(w, tid, w'.threads[tid])
                && FreshThread(w, w'.threads[tid]))
  }

  lemma DeliveryReply(w: World, tid: nat, card: Card, context: FundingContext)
    requires tid in w.threads && w.threads[tid].IsDelivery() && !w.threads[tid].DeliverSubmit?
    ensures ReplyOnly(w, tid, ServeThread(w, tid, w.threads[tid], card, context))
  {
    hide Read;
  }

  lemma OtherReply(w: World, tid: nat, card: Card, context: FundingContext)
    requires tid in w.threads && !w.threads[tid].IsDelivery()
    requires !w.threads[tid].CsSubmit? && !w.threads[tid].RejectionSubmit?
    ensures ReplyOnly(w, tid, ServeThread(w, tid, w.threads[tid], card, context))
  {
    hide Read;
  }

  lemma WriteFramed(w: World, tid: nat, card: Card, context: FundingContext)
    requires Inv(w) && tid in w.threads
    requires w.threads[tid].CsSubmit? || w.threads[tid].RejectionSubmit? || w.threads[tid].DeliverSubmit?
    ensures Framed(w, ServeThread(w, tid, w.threads[tid], card, context), EffectOf(w, Serve(tid, card, context)))
  {
    if w.threads[tid].CsSubmit? { AcceptanceFramed(w, tid, card, context); }
    else if w.threads[tid].RejectionSubmit? { AnswerSubmitFramed(w, tid, card, context); }
    else { DeliverSubmitFramed(w, tid, card, context); }
  }

  lemma AcceptanceFramed(w: World, tid: nat, card: Card, context: FundingContext)
    requires Inv(w) && tid in w.threads && w.threads[tid].CsSubmit?
    ensures Framed(w, ServeThread(w, tid, CsSubmit, card, context), Calm)
  {
    hide Framed, Step, Inv, Put, End;
    Refused(w, tid, Calm);
    if w.rt.state == PROPOSED { CommandFramed(w, tid, Countersigned); }
  }

  lemma AnswerSubmitFramed(w: World, tid: nat, card: Card, context: FundingContext)
    requires Inv(w) && tid in w.threads && w.threads[tid].RejectionSubmit?
    ensures Framed(w, ServeThread(w, tid, w.threads[tid], card, context), Calm)
  {
    hide Framed, Step, Inv, Put, End, ThreadOk;
    ThreadFact(w, tid);
    AnswerHarmless(w, w.threads[tid].command);
    Refused(w, tid, Calm);
    CommandFramed(w, tid, Submit(w.threads[tid].command));
  }

  lemma DeliverSubmitFramed(w: World, tid: nat, card: Card, context: FundingContext)
    requires Inv(w) && tid in w.threads && w.threads[tid].DeliverSubmit?
    ensures Framed(w, ServeThread(w, tid, w.threads[tid], card, context), Submits(w.threads[tid].command))
  {
    hide Framed, Step, Inv, Put, DeliverEnd;
    var command := w.threads[tid].command;
    Refused(w, tid, Submits(command));
    if Step(w.rt, Submit(command)).1.Applied? { DeliveredFramed(w, tid, command); }
  }

  /** Nothing committed: the submission was refused. */
  lemma Refused(w: World, tid: nat, e: Effect)
    requires tid in w.threads && !w.threads[tid].DeliverMinted? && (e.Calm? || e.Submits?)
    ensures Framed(w, End(w, tid), e) && Framed(w, DeliverEnd(w, tid), e) && Framed(w, Put(w, tid, DeliverProbe), e)
  {
    EndSegment(w, tid);
    PutSegment(w, tid, DeliverProbe);
    hide ThreadsFramed, Deliveries, AtWatchPoint;
  }

  lemma CommandFramed(w: World, tid: nat, i: Input<Payload>)
    requires Inv(w) && tid in w.threads && !w.threads[tid].DeliverMinted? && Harmless(w.rt, i)
    ensures var w1 := w.(rt := Step(w.rt, i).0); Framed(w, Put(w1, tid, ObserveReply(Read(w1))), Calm)
  {
    var w1 := w.(rt := Step(w.rt, i).0);
    RuntimeStep(w.rt, i);
    hide Framed, Segment, Step, Deliveries;
    PutSegment(w1, tid, ObserveReply(Read(w1)));
    RuntimeMoved(w, w1, Put(w1, tid, ObserveReply(Read(w1))), i, Calm);
  }

  lemma DeliveredFramed(w: World, tid: nat, command: Command<Payload>)
    requires Inv(w) && tid in w.threads && w.threads[tid] == DeliverSubmit(command)
    requires Step(w.rt, Submit(command)).1.Applied?
    ensures var w1 := w.(rt := Step(w.rt, Submit(command)).0);
      Framed(w, Put(w1, tid, DeliverObserve(Read(w1))), Submits(command))
  {
    DeliveryCommits(w, tid, command);
    var w1 := w.(rt := Step(w.rt, Submit(command)).0);
    hide Framed, Segment, Step, Committed, Inv;
    PutSegment(w1, tid, DeliverObserve(Read(w1)));
    RuntimeMoved(w, w1, Put(w1, tid, DeliverObserve(Read(w1))), Submit(command), Submits(command));
  }

  /** What the Runtime takes from a delivery task is its first delivery, or a retry. */
  lemma DeliveryCommits(w: World, tid: nat, command: Command<Payload>)
    requires Inv(w) && tid in w.threads && w.threads[tid] == DeliverSubmit(command)
    requires Step(w.rt, Submit(command)).1.Applied?
    ensures var w1 := w.(rt := Step(w.rt, Submit(command)).0);
      Committed(w1) == Committed(w) || (Committed(w) == [] && Committed(w1) == [command])
  {
    ThreadFact(w, tid);
    hide Guarded, ThreadsOk, RecordOk, SignaturesOk, LinksOk;
    DeliveryStep(w.rt, command);
  }

  // ------------------------------------------------------------------ every step

  lemma StartFramed(w: World, t: Thread)
    requires Inv(w) && FreshThread(w, t)
    ensures Framed(w, Spawn(w, t), Calm)
  {
    hide ThreadOk, WorldOk, Guarded, FreshThread;
    assert w.nextTid !in w.threads;
    hide Framed, Segment, ThreadsOk;
    SpawnSegment(w, t);
    SegmentFramed(w, Spawn(w, t), Calm);
  }

  /** A thread starts for something that was given. */
  lemma GivenFramed(w: World, given: Given, t: Thread)
    requires Inv(w) && FreshThread(w, t)
    ensures Framed(w, Spawn(w.(given := given), t), Calm)
  {
    hide ThreadOk, WorldOk, Guarded;
    assert w.nextTid !in w.threads;
    var w1 := w.(given := given);
    assert FreshThread(w1, t) by { SameFreshness(w, w1, t); }
    hide Framed, Segment, ThreadsOk, FreshThread;
    SpawnSegment(w1, t);
    GivenSegment(w, given, Spawn(w1, t));
    SegmentFramed(w, Spawn(w1, t), Calm);
  }

  lemma PruneFramed(w: World)
    requires w.rec.Some?
    ensures Framed(w, w.(rec := None), Forgets)
  {
    hide Deliveries;
  }

  lemma ResumeFramed(w: World, l: Label)
    requires Inv(w) && l.Resume? && l.tid in w.threads
    ensures Framed(w, ResumeThread(w, w.threads[l.tid], l), SegmentEffect(w, w.threads[l.tid]))
  {
    hide ThreadsOk, WorldOk, Guarded, Framed, Segment, SegmentEffect, ResumeThread;
    if w.threads[l.tid].IsDelivery() { DeliverySegment(w, l); } else { OtherSegment(w, l); }
    SegmentFramed(w, ResumeThread(w, w.threads[l.tid], l), SegmentEffect(w, w.threads[l.tid]));
  }

  lemma IdleFramed(w: World)
    ensures Framed(w, w, Calm)
  {
    hide Deliveries;
  }

  /** Every step changes no more than its effect allows. */
  lemma NextFramed(w: World, l: Label)
    requires Inv(w)
    ensures Framed(w, Next(w, l), EffectOf(w, l))
  {
    hide Framed, Inv, Spawn, ServeThread, ResumeThread, FailThread, MoveRuntime, SegmentEffect;
    IdleFramed(w);
    match l
    case RuntimeMoves(i) => if OthersMay(i) { MoveFramed(w, i); }
    case StartCountersign(req) => GivenFramed(w, w.given.(requests := w.given.requests + {req}), CsStatus(req));
    case StartNotification(names) => GivenFramed(w, w.given.(notified := true), NoteStatus);
    case StartFunding =>
      if w.dealTerms.Some? && w.rec.Some? { StartFramed(w, FundRead(w.rec.value.contract, w.dealTerms.value)); }
    case StartRejection(kind) =>
      if w.dealTerms.Some? {
        GivenFramed(w, w.given.(asked := w.given.asked + {kind}), RejectionStatus(kind, w.dealTerms.value));
      }
    case StartRefresh => StartFramed(w, RefreshStatus);
    case Prune => if w.rec.Some? { PruneFramed(w); }
    case Serve(tid, card, context) => if tid in w.threads { AnswerFramed(w, tid, card, context); }
    case Fail(tid, final, expired) =>
      if tid in w.threads {
        FailSegment(w, tid, final, expired);
        SegmentFramed(w, FailThread(w, tid, w.threads[tid], final, expired), Calm);
      }
    case Resume(tid, _, _, _, _, _, _, _, _, _) => if tid in w.threads { ResumeFramed(w, l); }
  }

  // ------------------------------------------------------------------ what a run remembers

  /** A record holding a token was reclaimed and no token was minted since. */
  predicate LostNext(lost: bool, w: World, l: Label) {
    (lost || (EffectOf(w, l).Forgets? && HasToken(w))) && !HasToken(Next(w, l))
  }

  predicate LostAfter(lost: bool, w: World, labels: seq<Label>)
    decreases |labels|
  {
    if labels == [] then lost else LostAfter(LostNext(lost, w, labels[0]), Next(w, labels[0]), labels[1..])
  }

  /** The run from `w` ends with such a loss. */
  predicate Lost(w: World, labels: seq<Label>) { LostAfter(false, w, labels) }

  /** The hash a command in flight, or a committed one, carries is the record's, or the record was lost. */
  ghost predicate TokenTold(w: World, lost: bool) {
    && (lost ==> !HasToken(w) && w.stale)
    && (forall i :: i in w.threads && w.threads[i].DeliverSubmit? ==>
          lost || (HasToken(w) && w.rec.value.deliveryHash == w.threads[i].command.payload.deliveryHash))
    && (Committed(w) != [] ==>
          lost || (HasToken(w) && w.rec.value.deliveryHash == Committed(w)[0].payload.deliveryHash))
  }

  /** A refund took away every token there is. */
  predicate RefundTold(w: World) { w.outcome.refunded && HasToken(w) ==> w.rec.value.revoked }

  /** A token not taken away is watched, was watched to an outcome that keeps it, or is about to be watched. */
  ghost predicate WatchTold(w: World) {
    HasToken(w) && !w.rec.value.revoked ==> w.watching || w.outcome.kept || AtWatchPoint(w)
  }

  predicate OutcomeReply(w: World, t: Thread) {
    match t
    case RefreshReply(st) => Terminal(st.state) ==> st.state == w.rt.state && st.bps == w.bps
    case WatchReply(st) => Terminal(st.state) ==> st.state == w.rt.state && st.bps == w.bps
    case _ => true
  }

  /** What was applied is what the Runtime says, now and for good. */
  ghost predicate OutcomeTold(w: World) {
    && (w.outcome.refunded ==> Refund(Read(w)))
    && (w.outcome.kept ==> Terminal(w.rt.state) && !Refund(Read(w)))
    && (forall i :: i in w.threads ==> OutcomeReply(w, w.threads[i]))
  }

  ghost predicate Told(w: World, lost: bool) {
    TokenTold(w, lost) && RefundTold(w) && WatchTold(w) && OutcomeTold(w)
  }

  /** A token is minted only while nothing is committed and no delivery is in flight. */
  lemma MintsAlone(w: World, l: Label)
    requires Inv(w) && EffectOf(w, l).Mints?
    ensures Committed(w) == [] && forall i :: i in w.threads ==> !w.threads[i].DeliverSubmit?
  {
    ThreadFact(w, l.tid);
    hide ThreadsOk, WorldOk, Deliveries;
    assert w.threads[l.tid].IsDelivery();
    assert forall i :: i in w.threads && w.threads[i].IsDelivery() ==> i == l.tid;
  }

  /** Without a late countersign a record holding a token is past every prune. */
  lemma ForgottenTokens(w: World, l: Label)
    requires Inv(w) && EffectOf(w, l).Forgets? && HasToken(w)
    ensures w.stale
  {
    hide ThreadsOk, Guarded, SignaturesOk, Consistent, Deliveries;
  }

  lemma HashHasToken(w: World)
    requires Inv(w) && w.rec.Some? && w.rec.value.deliveryHash.Some?
    ensures HasToken(w)
  {
    hide ThreadsOk, Guarded, SignaturesOk, Consistent, Deliveries;
  }

  /** The record goes on holding the hash, or it is lost. */
  predicate Carries(w: World, lost: bool, hash: Option<ManifestHash>) {
    lost || (HasToken(w) && w.rec.value.deliveryHash == hash)
  }

  lemma StillCarries(w: World, lost: bool, l: Label, hash: Option<ManifestHash>)
    requires Framed(w, Next(w, l), EffectOf(w, l)) && !EffectOf(w, l).Mints?
    requires (lost ==> !HasToken(w)) && Carries(w, lost, hash)
    ensures Carries(Next(w, l), LostNext(lost, w, l), hash)
  {
    hide Next, EffectOf, WatchFramed, ThreadsFramed, RuntimeFramed, SameDeal;
  }

  lemma TokenNext(w: World, lost: bool, l: Label)
    requires Inv(w) && Inv(Next(w, l)) && Framed(w, Next(w, l), EffectOf(w, l)) && TokenTold(w, lost)
    ensures TokenTold(Next(w, l), LostNext(lost, w, l))
  {
    if EffectOf(w, l).Forgets? && HasToken(w) { ForgottenTokens(w, l); }
    forall i | i in Next(w, l).threads && Next(w, l).threads[i].DeliverSubmit?
      ensures Carries(Next(w, l), LostNext(lost, w, l), Next(w, l).threads[i].command.payload.deliveryHash)
    {
      InFlightNext(w, lost, l, i);
    }
    if Committed(Next(w, l)) != [] { CommittedNext(w, lost, l); }
    hide Next, EffectOf, Inv, RecordFramed, WatchFramed, RuntimeFramed, ThreadsFramed, Deliveries;
  }

  lemma InFlightNext(w: World, lost: bool, l: Label, i: nat)
    requires Inv(w) && Inv(Next(w, l)) && Framed(w, Next(w, l), EffectOf(w, l)) && TokenTold(w, lost)
    requires i in Next(w, l).threads && Next(w, l).threads[i].DeliverSubmit?
    ensures Carries(Next(w, l), LostNext(lost, w, l), Next(w, l).threads[i].command.payload.deliveryHash)
  {
    hide Next, EffectOf, Inv, RecordFramed, WatchFramed, RuntimeFramed, LostNext, Deliveries;
    if i in w.threads && w.threads[i] == Next(w, l).threads[i] {
      if EffectOf(w, l).Mints? { MintsAlone(w, l); }
      StillCarries(w, lost, l, w.threads[i].command.payload.deliveryHash);
    } else {
      HashHasToken(Next(w, l));
    }
  }

  lemma CommittedNext(w: World, lost: bool, l: Label)
    requires Inv(w) && Framed(w, Next(w, l), EffectOf(w, l)) && TokenTold(w, lost) && Committed(Next(w, l)) != []
    ensures Carries(Next(w, l), LostNext(lost, w, l), Committed(Next(w, l))[0].payload.deliveryHash)
  {
    var e := EffectOf(w, l);
    if e.Mints? {
      MintsAlone(w, l);
    } else if Committed(Next(w, l)) == Committed(w) {
      hide Next, EffectOf, Inv, RecordFramed, WatchFramed, ThreadsFramed, Deliveries, LostNext;
      StillCarries(w, lost, l, Committed(w)[0].payload.deliveryHash);
    } else {
      assert l.tid in w.threads && w.threads[l.tid] == DeliverSubmit(e.command);
      hide Next, EffectOf, Inv, RecordFramed, WatchFramed, ThreadsFramed, Deliveries, LostNext;
      StillCarries(w, lost, l, e.command.payload.deliveryHash);
    }
  }

  /** After an applied refund no token is minted: the Runtime refunds only what was delivered. */
  lemma MintsUnrefunded(w: World, l: Label)
    requires Inv(w) && OutcomeTold(w) && EffectOf(w, l).Mints?
    ensures !w.outcome.refunded
  {
    MintsAlone(w, l);
    PathCounts(w.rt.chain, w.rt.state);
    hide Deliveries, Path, ThreadsOk, SignaturesOk, Guarded;
  }

  lemma RefundNext(w: World, l: Label)
    requires Inv(w) && Framed(w, Next(w, l), EffectOf(w, l)) && RefundTold(w) && OutcomeTold(w)
    ensures RefundTold(Next(w, l))
  {
    hide Next, EffectOf, WatchFramed, ThreadsFramed, RuntimeFramed, SameDeal, Inv, OutcomeTold;
    if EffectOf(w, l).Mints? { MintsUnrefunded(w, l); }
  }

  /** The watcher leaves only after an outcome was applied. */
  lemma LeavesSettled(w: World, l: Label)
    requires Inv(w) && EffectOf(w, l).Leaves?
    ensures w.outcome.refunded || w.outcome.kept
  {
    ThreadFact(w, l.tid);
  }

  lemma WatchNext'(w: World, l: Label)
    requires Inv(w) && Framed(w, Next(w, l), EffectOf(w, l)) && WatchTold(w) && RefundTold(w)
    ensures WatchTold(Next(w, l))
  {
    if EffectOf(w, l).Leaves? { LeavesSettled(w, l); }
    hide Next, EffectOf, ThreadsFramed, RuntimeFramed, SameDeal, Inv, AtWatchPoint;
  }

  /** What a refresh applies is what the Runtime still says. */
  lemma AppliesNow(w: World, l: Label)
    requires EffectOf(w, l).Applies? && OutcomeTold(w)
    ensures Terminal(EffectOf(w, l).st.state) ==>
      EffectOf(w, l).st.state == w.rt.state && EffectOf(w, l).st.bps == w.bps
  {
    hide Refund, Read;
    assert OutcomeReply(w, w.threads[l.tid]);
  }

  lemma OutcomeNext(w: World, l: Label)
    requires Framed(w, Next(w, l), EffectOf(w, l)) && OutcomeTold(w)
    ensures OutcomeTold(Next(w, l))
  {
    var w', e := Next(w, l), EffectOf(w, l);
    if e.Applies? { AppliesNow(w, l); }
    hide Next, EffectOf, WatchFramed, SameDeal, Deliveries;
    forall i | i in w'.threads ensures OutcomeReply(w', w'.threads[i]) {
      if i in w.threads && w'.threads[i] == w.threads[i] { assert OutcomeReply(w, w.threads[i]); }
    }
  }

  /** Every step keeps what is told. */
  lemma ToldNext(w: World, lost: bool, l: Label)
    requires Inv(w) && Told(w, lost)
    ensures Inv(Next(w, l)) && Told(Next(w, l), LostNext(lost, w, l))
  {
    NextInv(w, l);
    NextFramed(w, l);
    hide Inv, Framed, Next, LostNext, TokenTold, RefundTold, WatchTold, OutcomeTold;
    TokenNext(w, lost, l);
    RefundNext(w, l);
    WatchNext'(w, l);
    OutcomeNext(w, l);
  }

  lemma {:induction false} ToldRun(w: World, lost: bool, labels: seq<Label>)
    requires Inv(w) && Told(w, lost)
    ensures Inv(Live.Run(w, labels)) && Told(Live.Run(w, labels), LostAfter(lost, w, labels))
    decreases |labels|
  {
    if labels != [] {
      ToldNext(w, lost, labels[0]);
      ToldRun(Next(w, labels[0]), LostNext(lost, w, labels[0]), labels[1..]);
    }
  }
}
