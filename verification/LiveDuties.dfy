/** What the seller's signatures and commands rest on, over every run: what it was asked, what it had read. */
module LiveDuties {
  import opened Sorting
  import opened Extension
  import opened Agreement
  import opened Live
  import opened LiveSafety
  import opened LiveSteps
  import opened LiveHistory
  import opened LiveTheorems
  import Settlement

  // ------------------------------------------------------------------ what the seller was given

  /** Somewhere in the run a caller asked for this answer. */
  predicate Asks(labels: seq<Label>, kind: CommandType) { StartRejection(kind) in labels }

  /** Somewhere in the run this request came in. */
  predicate Requests(labels: seq<Label>, req: CountersignRequest) { StartCountersign(req) in labels }

  /** Somewhere in the run a notification came in that named no terms, or these. */
  predicate Notifies(labels: seq<Label>, terms: Digest) {
    StartNotification(None) in labels || StartNotification(Some(terms)) in labels
  }

  /** Somewhere in the run a segment found the signing gate open. */
  predicate Opens(labels: seq<Label>) { exists i :: 0 <= i < |labels| && labels[i].Resume? && labels[i].active }

  /** Somewhere in the run a status carried everything a delivery signs over. */
  predicate Anchors(labels: seq<Label>) { exists i :: 0 <= i < |labels| && labels[i].Resume? && labels[i].anchored }

  lemma GivenNext(w: World, l: Label)
    requires w.dealTerms.Some? ==> w.dealTerms == Some(w.terms)
    ensures var w' := Next(w, l);
      && (forall req :: req in w'.given.requests ==> req in w.given.requests || l == StartCountersign(req))
      && (forall k :: k in w'.given.asked ==> k in w.given.asked || l == StartRejection(k))
      && (w'.given.notified ==>
            w.given.notified || l == StartNotification(None) || l == StartNotification(Some(w.terms)))
      && (w'.given.gate ==> w.given.gate || (l.Resume? && l.active))
      && (w'.given.anchors ==> w.given.anchors || (l.Resume? && l.anchored))
  {
    hide Step, ResumeThread, ServeThread, FailThread, Reclaimable, Read;
    match l
    case Serve(tid, card, context) =>
      if tid in w.threads { GivenServed(w, tid, w.threads[tid], card, context); }
    case Fail(tid, final, expired) =>
      if tid in w.threads { GivenFailed(w, tid, w.threads[tid], final, expired); }
    case Resume(tid, _, _, _, _, _, _, _, _, _) => if tid in w.threads { GivenResume(w, w.threads[tid], l); }
    case _ =>
  }

  lemma GivenServed(w: World, tid: nat, t: Thread, card: Card, context: FundingContext)
    ensures ServeThread(w, tid, t, card, context).given == w.given
  {
    hide Step, Read;
  }

  lemma GivenFailed(w: World, tid: nat, t: Thread, final: bool, expired: bool)
    ensures FailThread(w, tid, t, final, expired).given == w.given
  {
  }

  lemma GivenResume(w: World, t: Thread, l: Label)
    requires l.Resume?
    ensures var w' := ResumeThread(w, t, l);
      && w'.given.requests == w.given.requests && w'.given.asked == w.given.asked
      && w'.given.notified == w.given.notified
      && (w'.given.gate ==> w.given.gate || l.active)
      && (w'.given.anchors ==> w.given.anchors || l.anchored)
  {
    hide CsCheck, CsAccept, FundSign, RejectionSign, ObserveDone, RefreshDone, WatchDone, WatchNext, NoteDone;
    hide DeliverCheck, DeliverPrepare, DeliverMint, DeliverWatch, DeliverCommand, DeliverDone, DeliverProbed;
    hide DeliverStart, Read;
    match t
    case CsStatusReply(_, _) => ServiceGiven(w, t, l);
    case CsCardReply(_, _, _) => ServiceGiven(w, t, l);
    case FundReply(_, _, _) => ServiceGiven(w, t, l);
    case RejectionReply(_, _, _) => ServiceGiven(w, t, l);
    case ObserveReply(_) => ServiceGiven(w, t, l);
    case RefreshReply(_) => ServiceGiven(w, t, l);
    case WatchReply(_) => ServiceGiven(w, t, l);
    case WatchDecide(_) => ServiceGiven(w, t, l);
    case NoteStatusReply(st) => GivenNote(w, l.tid, st, l.active);
    case DeliverObserve(_) => DeliveryGiven(w, t, l);
    case DeliverProbeReply(_) => DeliveryGiven(w, t, l);
    case DeliverStatusReply(_, _) => DeliveryGiven(w, t, l);
    case DeliverFunded(_, _) => DeliveryGiven(w, t, l);
    case DeliverGenerating(_, _, _) => DeliveryGiven(w, t, l);
    case DeliverMinted(_) => DeliveryGiven(w, t, l);
    case DeliverRegistered(_) => DeliveryGiven(w, t, l);
    case _ =>
  }

  lemma ServiceGiven(w: World, t: Thread, l: Label)
    requires l.Resume?
    requires || t.CsStatusReply? || t.CsCardReply? || t.FundReply? || t.RejectionReply? || t.ObserveReply?
      || t.RefreshReply? || t.WatchReply? || t.WatchDecide?
    ensures ResumeThread(w, t, l).given == w.given
  {
    hide CsCheck, CsAccept, FundSign, RejectionSign, ObserveDone, RefreshDone, WatchDone, WatchNext, Read;
    match t
    case CsStatusReply(req, st) => GivenCheck(w, l.tid, req, st);
    case CsCardReply(req, st, card) => GivenAccept(w, l.tid, req, st, card, l.v);
    case FundReply(accepted, terms, context) => GivenFund(w, l.tid, accepted, terms, context);
    case RejectionReply(kind, terms, st) => GivenAnswer(w, l.tid, kind, terms, st, l.id);
    case ObserveReply(st) => GivenRead(w, l.tid, st);
    case RefreshReply(st) => GivenRead(w, l.tid, st);
    case WatchReply(st) => GivenRead(w, l.tid, st);
    case WatchDecide(state) => GivenPause(w, l.tid, Read(w), state, l.expired);
  }

  lemma DeliveryGiven(w: World, t: Thread, l: Label)
    requires l.Resume?
    requires || t.DeliverStatusReply? || t.DeliverFunded? || t.DeliverGenerating? || t.DeliverMinted?
      || t.DeliverRegistered? || t.DeliverObserve? || t.DeliverProbeReply?
    ensures var w' := ResumeThread(w, t, l);
      && w'.given == w.given.(anchors := w'.given.anchors)
      && (w'.given.anchors ==> w.given.anchors || l.anchored)
  {
    hide CsCheck, CsAccept, FundSign, RejectionSign, ObserveDone, RefreshDone, WatchDone, WatchNext, NoteDone;
    hide DeliverCheck, DeliverPrepare, DeliverMint, DeliverWatch, DeliverCommand, DeliverDone, DeliverProbed;
    hide DeliverStart, Read;
    match t
    case DeliverStatusReply(terms, st) => GivenChecked(w, l.tid, terms, st, l.anchored, l.domain);
    case DeliverFunded(_, st) => GivenWork(w, l.tid, st, l.id);
    case DeliverGenerating(oid, contract, st) => GivenMint(w, l.tid, oid, contract, st, l.token, l.csv, l.rest);
    case DeliverMinted(st) => GivenWork(w, l.tid, st, l.id);
    case DeliverRegistered(st) => GivenWork(w, l.tid, st, l.id);
    case DeliverObserve(st) => GivenRead(w, l.tid, st);
    case DeliverProbeReply(st) => GivenPause(w, l.tid, st, st.state, l.expired);
  }

  lemma GivenCheck(w: World, tid: nat, req: CountersignRequest, st: Status)
    ensures CsCheck(w, tid, req, st).given == w.given
  {
  }

  lemma GivenAccept(w: World, tid: nat, req: CountersignRequest, st: Status, card: Card, v: Validation)
    ensures CsAccept(w, tid, req, st, card, v).given == w.given
  {
    hide AcceptTerms, ValidateRuntimeCard, Past;
  }

  lemma GivenNote(w: World, tid: nat, st: Status, active: bool)
    ensures var g := NoteDone(w, tid, st, active).given;
      g == w.given.(gate := g.gate) && (g.gate ==> w.given.gate || active)
  {
    hide DeliverStart;
  }

  lemma GivenFund(w: World, tid: nat, accepted: Contract, terms: Digest, context: FundingContext)
    ensures FundSign(w, tid, accepted, terms, context).given == w.given
  {
    hide Settlement.UsdcBaseUnits;
  }

  lemma GivenAnswer(w: World, tid: nat, kind: CommandType, terms: Digest, st: Status, id: nat)
    ensures RejectionSign(w, tid, kind, terms, st, id).given == w.given
  {
  }

  lemma GivenRead(w: World, tid: nat, st: Status)
    ensures ObserveDone(w, tid, st).given == w.given && DeliverDone(w, tid, st).given == w.given
    ensures RefreshDone(w, tid, st).given == w.given && WatchDone(w, tid, st).given == w.given
  {
    hide Refund, Terminal;
  }

  lemma GivenPause(w: World, tid: nat, st: Status, state: State, expired: bool)
    ensures WatchNext(w, tid, state).given == w.given && DeliverProbed(w, tid, st, expired).given == w.given
  {
    hide Terminal;
  }

  lemma GivenWork(w: World, tid: nat, st: Status, id: nat)
    ensures DeliverPrepare(w, tid, st).given == w.given && DeliverWatch(w, tid, st).given == w.given
    ensures DeliverCommand(w, tid, st, id).given == w.given
  {
  }

  lemma GivenMint(w: World, tid: nat, oid: nat, contract: Contract, st: Status, token: nat, csv: Text, rest: Text)
    ensures DeliverMint(w, tid, oid, contract, st, token, csv, rest).given == w.given
  {
  }

  lemma GivenChecked(w: World, tid: nat, terms: Digest, st: Status, anchored: bool, domain: bool)
    ensures var g := DeliverCheck(w, tid, terms, st, anchored, domain).given;
      g == w.given.(anchors := g.anchors) && (g.anchors ==> w.given.anchors || anchored)
  {
    hide DeliverPrepare;
    if w.rec.Some? { GivenWork(Observed(w, st).(given := w.given.(anchors := true)), tid, st, 0); }
  }

  /** Nothing was given that no label gave. */
  lemma {:induction false} GivenByLabels(w: World, labels: seq<Label>)
    requires Inv(w)
    ensures var g := Live.Run(w, labels).given;
      && (forall req :: req in g.requests ==> req in w.given.requests || Requests(labels, req))
      && (forall k :: k in g.asked ==> k in w.given.asked || Asks(labels, k))
      && (g.notified ==> w.given.notified || Notifies(labels, w.terms))
      && (g.gate ==> w.given.gate || Opens(labels))
      && (g.anchors ==> w.given.anchors || Anchors(labels))
    decreases |labels|
  {
    if labels != [] {
      WorldFacts(w);
      NextInv(w, labels[0]);
      hide Inv;
      GivenNext(w, labels[0]);
      GivenByLabels(Next(w, labels[0]), labels[1..]);
      assert Next(w, labels[0]).terms == w.terms by { SameTerms(w, labels[0]); }
      hide Next;
      assert labels == [labels[0]] + labels[1..];
      if Opens(labels[1..]) {
        var i :| 0 <= i < |labels[1..]| && labels[1..][i].Resume? && labels[1..][i].active;
        assert labels[i + 1] == labels[1..][i];
      }
      if Anchors(labels[1..]) {
        var i :| 0 <= i < |labels[1..]| && labels[1..][i].Resume? && labels[1..][i].anchored;
        assert labels[i + 1] == labels[1..][i];
      }
    }
  }

  lemma SameTerms(w: World, l: Label)
    requires Inv(w)
    ensures Next(w, l).terms == w.terms
  {
    NextFramed(w, l);
    hide Inv, Next, EffectOf, RecordFramed, WatchFramed, ThreadsFramed, RuntimeFramed;
  }

  // ------------------------------------------------------------------ signatures and the status they were made on

  /** The state of the Runtime that calls for this signature. */
  ghost predicate CalledFor(w: World, s: Signed) {
    match s
    case SignedAgreement(_, _, _, r) => Was(w, r, PROPOSED) || Was(w, r, COMMITTED)
    case SignedActivation(context, _) => context.buyerReady && context.hasDomain
    case SignedEvidence(_, _, r) => Was(w, r, FULFILLING)
    case SignedDelivery(_, _, r) => Was(w, r, FULFILLING)
    case SignedRejectionAnswer(_, _, r) => Was(w, r, REJECTED)
  }

  /** An Agreement is signed only for a request that came in, with what it brought: contract, buyer and signature. */
  lemma AgreementsAreRequested(
      seller: Seller, dealId: Text, terms: Terms, labels: seq<Label>, req: CountersignRequest, chainId: nat, oid: nat,
      revision: int)
    requires SignedAgreement(req, chainId, oid, revision) in Live.Run(Start(seller, dealId, terms), labels).signed
    ensures var w := Live.Run(Start(seller, dealId, terms), labels);
      && Requests(labels, req) && req.contract.terms == terms
      && exists a :: a in w.passed && Passed(seller, dealId, a) && Answered(a, req, chainId)
  {
    var start := Start(seller, dealId, terms);
    var w := Live.Run(start, labels);
    Reached(seller, dealId, terms, labels);
    StartInv(seller, dealId, terms);
    Fixed(start, labels);
    GivenByLabels(start, labels);
    hide Live.Run, Told, ThreadsOk, Guarded, Consistent, Deliveries, Passed;
    assert SignedOk(w, SignedAgreement(req, chainId, oid, revision));
    var a :| a in w.passed && Answered(a, req, chainId);
    assert Passed(w.seller, w.dealId, a);
  }

  /** Nothing is signed on a state the Runtime was not in at the revision the signature was made on. */
  lemma SignaturesAreCalledFor(seller: Seller, dealId: Text, terms: Terms, labels: seq<Label>)
    ensures var w := Live.Run(Start(seller, dealId, terms), labels); forall s :: s in w.signed ==> CalledFor(w, s)
  {
    var w := Live.Run(Start(seller, dealId, terms), labels);
    Reached(seller, dealId, terms, labels);
    hide Live.Run, Start, Told, ThreadsOk, Guarded, Consistent, Deliveries;
    forall s | s in w.signed ensures CalledFor(w, s) { assert SignedOk(w, s); }
  }

  /**
   Whatever command of the seller the Runtime applied, the seller had signed: that kind, those terms, that delivery
   hash, against that revision, at which the Runtime was in the state the command moves from.
   */
  lemma CommandsAreSigned(seller: Seller, dealId: Text, terms: Terms, labels: seq<Label>, i: nat)
    requires var w := Live.Run(Start(seller, dealId, terms), labels);
      i < |w.rt.chain| && w.rt.chain[i].driver.ByCommand? && w.rt.chain[i].driver.command.actor == Actor.Seller
    ensures var w := Live.Run(Start(seller, dealId, terms), labels); var c := w.rt.chain[i].driver.command;
      && c.kind in {Delivered, Appealed, RefundConsented} && c.payload.terms == OfTerms(terms)
      && CommandSigned(w.signed, c)
      && Was(w, c.expectedRevision, if c.kind == Delivered then FULFILLING else REJECTED)
  {
    var start := Start(seller, dealId, terms);
    var w := Live.Run(start, labels);
    Reached(seller, dealId, terms, labels);
    StartInv(seller, dealId, terms);
    Fixed(start, labels);
    LinkLegal(w.rt.chain, w.rt.state, i);
    hide Live.Run, Told, ThreadsOk, Guarded, Deliveries, Path, Deliveries;
    SignaturesAreCalledFor(seller, dealId, terms, labels);
    SignaturesCommitToAcceptedTerms(seller, dealId, terms, labels);
  }

  lemma {:induction false} LinkLegal(chain: seq<Link<Payload>>, end: State, i: nat)
    requires Path(chain, end) && i < |chain|
    ensures LegalLink(chain[i])
    decreases |chain|
  {
    if i < |chain| - 1 { LinkLegal(chain[..|chain| - 1], chain[|chain| - 1].from, i); }
  }

  // ------------------------------------------------------------------ answers to a rejection

  predicate Answers(l: Link<Payload>) {
    l.driver.ByCommand? && l.driver.command.kind in {Appealed, RefundConsented}
  }

  /**
   The seller appeals, or consents to a refund, only where it was asked for just that: no such signature, no such
   command on its way and no such transition without the call.
   */
  lemma AnswersAreAsked(seller: Seller, dealId: Text, terms: Terms, labels: seq<Label>)
    ensures var w := Live.Run(Start(seller, dealId, terms), labels);
      && (forall s :: s in w.signed && s.SignedRejectionAnswer? ==> Asks(labels, s.kind))
      && (forall t :: t in w.threads && w.threads[t].RejectionSubmit? ==> Asks(labels, w.threads[t].command.kind))
      && (forall i :: 0 <= i < |w.rt.chain| && Answers(w.rt.chain[i]) ==>
            Asks(labels, w.rt.chain[i].driver.command.kind))
  {
    var start := Start(seller, dealId, terms);
    var w := Live.Run(start, labels);
    Reached(seller, dealId, terms, labels);
    StartInv(seller, dealId, terms);
    GivenByLabels(start, labels);
    AnswersNeedAsking(w);
    hide *;
  }

  lemma AnswersNeedAsking(w: World)
    requires Inv(w)
    ensures forall s :: s in w.signed && s.SignedRejectionAnswer? ==> s.kind in w.given.asked
    ensures forall t :: t in w.threads && w.threads[t].RejectionSubmit? ==> w.threads[t].command.kind in w.given.asked
    ensures forall i :: 0 <= i < |w.rt.chain| && Answers(w.rt.chain[i]) ==>
      w.rt.chain[i].driver.command.kind in w.given.asked
  {
    hide Guarded, Consistent, CommittedOk, RecordOk, Undelivered, Formation, Ready;
    forall s | s in w.signed && s.SignedRejectionAnswer? ensures s.kind in w.given.asked { assert SignedOk(w, s); }
    forall t | t in w.threads && w.threads[t].RejectionSubmit? ensures w.threads[t].command.kind in w.given.asked {
      assert ThreadOk(w, w.threads[t]);
    }
  }

  predicate Lapsed(l: Link<Payload>) {
    l.driver == ByEvent(AppealResponseExpired) || l.driver == ByEvent(ArbitrationExpired)
  }

  predicate Consented(l: Link<Payload>) { l.driver.ByCommand? && l.driver.command.kind == RefundConsented }

  lemma {:induction false} CancelledBy(chain: seq<Link<Payload>>, end: State)
    requires Path(chain, end) && end == CANCELLED
    ensures exists i :: 0 <= i < |chain| && (Lapsed(chain[i]) || Consented(chain[i]))
    decreases |chain|
  {
    var n := |chain| - 1;
    if chain[n].from == CANCELLED {
      CancelledBy(chain[..n], CANCELLED);
      var i :| 0 <= i < n && (Lapsed(chain[..n][i]) || Consented(chain[..n][i]));
      assert chain[..n][i] == chain[i];
    } else {
      assert Lapsed(chain[n]) || Consented(chain[n]);
    }
  }

  /** A seller that was never asked to consent to a refund is cancelled by a deadline only. */
  lemma UnaskedIsCancelledByDeadline(seller: Seller, dealId: Text, terms: Terms, labels: seq<Label>)
    requires !Asks(labels, RefundConsented)
    ensures var w := Live.Run(Start(seller, dealId, terms), labels);
      w.rt.state == CANCELLED ==> exists i :: 0 <= i < |w.rt.chain| && Lapsed(w.rt.chain[i])
  {
    var w := Live.Run(Start(seller, dealId, terms), labels);
    Reached(seller, dealId, terms, labels);
    AnswersAreAsked(seller, dealId, terms, labels);
    if w.rt.state == CANCELLED {
      CancelledBy(w.rt.chain, w.rt.state);
      hide Live.Run, Start, Told, Inv, Path;
      var i :| 0 <= i < |w.rt.chain| && (Lapsed(w.rt.chain[i]) || Consented(w.rt.chain[i]));
    }
  }

  /**
   Asked while the Runtime holds a rejection, the seller gets just the answer asked for through, when nothing comes
   between the call, the read, the signature and the submission.
   */
  lemma AnswerReachesRuntime(
      seller: Seller, dealId: Text, terms: Terms, labels: seq<Label>, kind: CommandType, read: Label, resume: Label,
      submit: Label)
    requires kind in {Appealed, RefundConsented} && read.Serve? && resume.Resume? && submit.Serve?
    requires var w := Live.Run(Start(seller, dealId, terms), labels);
      && w.rt.state == REJECTED && w.dealTerms.Some? && w.rec.Some? && resume.id !in w.rt.history
      && read.tid == resume.tid == submit.tid == w.nextTid
    ensures var w := Live.Run(Start(seller, dealId, terms), labels);
      var w' := Live.Run(w, [StartRejection(kind), read, resume, submit]);
      && w'.rt.state == (if kind == Appealed then DISPUTED else CANCELLED)
      && w'.signed == w.signed + [SignedRejectionAnswer(kind, w.dealTerms.value, w.rt.revision)]
  {
    var w := Live.Run(Start(seller, dealId, terms), labels);
    hide Live.Run, Start;
    AnswerRead(w, kind, read);
    var w2 := Next(Next(w, StartRejection(kind)), read);
    AnswerSigned(w2, w.nextTid, kind, w.dealTerms.value, Read(w), resume);
    AnswerApplied(Next(w2, resume), w.nextTid, kind, w.dealTerms.value, resume.id, submit);
    FourSteps(w, StartRejection(kind), read, resume, submit);
  }

  lemma FirstStep(w: World, a: Label, rest: seq<Label>)
    ensures Live.Run(w, [a] + rest) == Live.Run(Next(w, a), rest)
  {
    hide Next;
    assert ([a] + rest)[1..] == rest;
  }

  lemma FourSteps(w: World, a: Label, b: Label, c: Label, d: Label)
    ensures Live.Run(w, [a, b, c, d]) == Next(Next(Next(Next(w, a), b), c), d)
  {
    hide Next;
    FirstStep(w, a, [b, c, d]);
    FirstStep(Next(w, a), b, [c, d]);
    FirstStep(Next(Next(w, a), b), c, [d]);
    FirstStep(Next(Next(Next(w, a), b), c), d, []);
    assert [a, b, c, d] == [a] + [b, c, d] && [b, c, d] == [b] + [c, d] && [c, d] == [c] + [d] && [d] == [d] + [];
  }

  lemma AnswerRead(w: World, kind: CommandType, serve: Label)
    requires serve.Serve? && serve.tid == w.nextTid && kind in {Appealed, RefundConsented} && w.dealTerms.Some?
    ensures var w' := Next(Next(w, StartRejection(kind)), serve);
      && w'.rt == w.rt && w'.rec == w.rec && w'.signed == w.signed && w'.nextTid == w.nextTid + 1
      && serve.tid in w'.threads && w'.threads[serve.tid] == RejectionReply(kind, w.dealTerms.value, Read(w))
  {
    hide Step;
    var w1 := Next(w, StartRejection(kind));
    assert w1.threads[serve.tid] == RejectionStatus(kind, w.dealTerms.value);
  }

  lemma AnswerSigned(w: World, tid: nat, kind: CommandType, terms: Digest, st: Status, resume: Label)
    requires resume.Resume? && resume.tid == tid && w.rec.Some? && st.state == REJECTED
    requires tid in w.threads && w.threads[tid] == RejectionReply(kind, terms, st)
    ensures var w' := Next(w, resume);
      && w'.rt == w.rt && w'.signed == w.signed + [SignedRejectionAnswer(kind, terms, st.revision)]
      && tid in w'.threads && w'.threads[tid] ==
           RejectionSubmit(Command(resume.id, kind, Actor.Seller, st.revision, Payload(terms, None, 0)))
  {
    hide CsAccept, DeliverCheck, DeliverMint, FundSign, NoteDone;
  }

  lemma AnswerApplied(w: World, tid: nat, kind: CommandType, terms: Digest, id: nat, serve: Label)
    requires serve.Serve? && serve.tid == tid && kind in {Appealed, RefundConsented}
    requires w.rt.state == REJECTED && id !in w.rt.history && tid in w.threads
    requires w.threads[tid] ==
      RejectionSubmit(Command(id, kind, Actor.Seller, w.rt.revision, Payload(terms, None, 0)))
    ensures Next(w, serve).rt.state == (if kind == Appealed then DISPUTED else CANCELLED)
    ensures Next(w, serve).signed == w.signed
  {
  }

  // ------------------------------------------------------------------ tasks that do not give up

  /** Why a delivery task ends: nothing but these. */
  ghost predicate GivesUp(w: World, l: Label, tid: nat) {
    && tid in w.threads && w.threads[tid].IsDelivery()
    && match l
       case Fail(t, final, expired) => t == tid && (final || expired)
       case Serve(t, _, _) => t == tid && w.threads[tid].DeliverSubmit? && w.threads[tid].command.id in w.rt.history
       case Resume(t, _, _, _, _, _, _, _, _, expired) =>
         && t == tid
         && (w.threads[tid].DeliverObserve?
             || (w.threads[tid].DeliverProbeReply? && (expired || Stopped(w, w.threads[tid].st))))
       case _ => false
  }

  /** The Runtime was read out of FULFILLING, and was. */
  ghost predicate Stopped(w: World, st: Status) { st.state != FULFILLING && Was(w, st.revision, st.state) }

  /**
   A delivery task goes on through losses, shut gates, unready statuses and stale revisions. It ends with the reply to
   its own command, on a final refusal, after its deadline, where the Runtime was read out of FULFILLING, or if its
   command's id had been used.
   */
  lemma DeliveryGoesOn(seller: Seller, dealId: Text, terms: Terms, labels: seq<Label>, l: Label)
    requires var w := Live.Run(Start(seller, dealId, terms), labels); w.delivering && !Next(w, l).delivering
    ensures exists tid :: GivesUp(Live.Run(Start(seller, dealId, terms), labels), l, tid)
  {
    var w := Live.Run(Start(seller, dealId, terms), labels);
    Reached(seller, dealId, terms, labels);
    hide Live.Run, Start, Told;
    match l
    case Fail(tid, _, _) => if tid in w.threads { FailEnds(w, l); }
    case Serve(tid, _, _) => if tid in w.threads { ServeEnds(w, l); }
    case Resume(tid, _, _, _, _, _, _, _, _, _) => if tid in w.threads { ResumeEnds(w, l); }
    case _ => hide Step, Reclaimable;
  }

  lemma FailEnds(w: World, l: Label)
    requires l.Fail? && l.tid in w.threads && w.delivering && !Next(w, l).delivering
    ensures GivesUp(w, l, l.tid)
  {
  }

  lemma ServeEnds(w: World, l: Label)
    requires Inv(w) && l.Serve? && l.tid in w.threads && w.delivering && !Next(w, l).delivering
    ensures GivesUp(w, l, l.tid)
  {
    ThreadFact(w, l.tid);
    var t := w.threads[l.tid];
    assert t.DeliverSubmit? by { hide Step, Inv, Read, ThreadOk; }
    hide Inv;
    SubmitEnds(w, l.tid, t.command, l.card, l.context);
  }

  lemma SubmitEnds(w: World, tid: nat, command: Command<Payload>, card: Card, context: FundingContext)
    requires Consistent(w.rt) && tid in w.threads && w.threads[tid] == DeliverSubmit(command) && w.delivering
    requires ThreadOk(w, w.threads[tid]) && !ServeThread(w, tid, w.threads[tid], card, context).delivering
    ensures command.id in w.rt.history
  {
    assert Was(w, command.expectedRevision, FULFILLING) && command.actor == Actor.Seller && command.kind == Delivered;
    StandsThere(w.rt.chain, w.rt.state);
    hide ThreadOk, Path, Read;
  }

  /** The Runtime stands where its last link went. */
  lemma StandsThere<P>(chain: seq<Link<P>>, end: State)
    requires Path(chain, end)
    ensures end == if chain == [] then PROPOSED else chain[|chain| - 1].to
  {
  }

  lemma ResumeEnds(w: World, l: Label)
    requires Inv(w) && l.Resume? && l.tid in w.threads && w.delivering && !Next(w, l).delivering
    ensures GivesUp(w, l, l.tid)
  {
    var t := w.threads[l.tid];
    ThreadFact(w, l.tid);
    hide Inv, Next;
    assert Next(w, l) == ResumeThread(w, t, l) by { hide ResumeThread; NextResumes(w, l); }
    if t.DeliverProbeReply? {
      assert Snapshot(w, t.st);
      assert ResumeThread(w, t, l) == DeliverProbed(w, l.tid, t.st, l.expired);
    } else if !t.DeliverObserve? {
      StillDelivering(w, t, l);
    }
  }

  lemma NextResumes(w: World, l: Label)
    requires l.Resume? && l.tid in w.threads
    ensures Next(w, l) == ResumeThread(w, w.threads[l.tid], l)
  {
    hide ResumeThread;
  }

  lemma StillDelivering(w: World, t: Thread, l: Label)
    requires l.Resume? && !t.DeliverObserve? && !t.DeliverProbeReply? && w.delivering
    ensures ResumeThread(w, t, l).delivering
  {
    hide CsCheck, CsAccept, FundSign, RejectionSign, ObserveDone, RefreshDone, WatchDone, WatchNext, NoteDone;
    hide DeliverCheck, DeliverPrepare, DeliverMint, DeliverWatch, DeliverCommand, DeliverDone, DeliverProbed;
    hide DeliverStart;
    match t
    case CsStatusReply(req, st) => StillCountersigning(w, l.tid, req, st);
    case CsCardReply(req, st, card) => StillAccepting(w, l.tid, req, st, card, l.v);
    case NoteStatusReply(st) => StillNoted(w, l.tid, st, l.active);
    case FundReply(accepted, terms, context) => StillFunding(w, l.tid, accepted, terms, context);
    case RejectionReply(kind, terms, st) => StillAnswering(w, l.tid, kind, terms, st, l.id);
    case ObserveReply(st) => StillReading(w, l.tid, st);
    case RefreshReply(st) => StillReading(w, l.tid, st);
    case WatchReply(st) => StillReading(w, l.tid, st);
    case WatchDecide(state) => StillWatching(w, l.tid, state);
    case DeliverStatusReply(terms, st) => StillChecking(w, l.tid, terms, st, l.anchored, l.domain);
    case DeliverFunded(_, st) => StillWorking(w, l.tid, st, l.id);
    case DeliverGenerating(oid, contract, st) => StillMinting(w, l.tid, oid, contract, st, l);
    case DeliverMinted(st) => StillWorking(w, l.tid, st, l.id);
    case DeliverRegistered(st) => StillWorking(w, l.tid, st, l.id);
    case _ =>
  }

  lemma StillCountersigning(w: World, tid: nat, req: CountersignRequest, st: Status)
    ensures CsCheck(w, tid, req, st).delivering == w.delivering
  {
  }

  lemma StillAccepting(w: World, tid: nat, req: CountersignRequest, st: Status, card: Card, v: Validation)
    ensures CsAccept(w, tid, req, st, card, v).delivering == w.delivering
  {
    hide AcceptTerms, ValidateRuntimeCard, Past;
  }

  lemma StillNoted(w: World, tid: nat, st: Status, active: bool)
    requires w.delivering
    ensures NoteDone(w, tid, st, active).delivering
  {
  }

  lemma StillFunding(w: World, tid: nat, accepted: Contract, terms: Digest, context: FundingContext)
    ensures FundSign(w, tid, accepted, terms, context).delivering == w.delivering
  {
    hide Settlement.UsdcBaseUnits;
  }

  lemma StillAnswering(w: World, tid: nat, kind: CommandType, terms: Digest, st: Status, id: nat)
    ensures RejectionSign(w, tid, kind, terms, st, id).delivering == w.delivering
  {
  }

  lemma StillReading(w: World, tid: nat, st: Status)
    ensures ObserveDone(w, tid, st).delivering == w.delivering && RefreshDone(w, tid, st).delivering == w.delivering
    ensures WatchDone(w, tid, st).delivering == w.delivering
  {
    hide Refund, Terminal;
  }

  lemma StillWatching(w: World, tid: nat, state: State)
    ensures WatchNext(w, tid, state).delivering == w.delivering
  {
  }

  lemma StillChecking(w: World, tid: nat, terms: Digest, st: Status, anchored: bool, domain: bool)
    ensures DeliverCheck(w, tid, terms, st, anchored, domain).delivering == w.delivering
  {
  }

  lemma StillWorking(w: World, tid: nat, st: Status, id: nat)
    ensures DeliverPrepare(w, tid, st).delivering == w.delivering && DeliverWatch(w, tid, st).delivering == w.delivering
    ensures DeliverCommand(w, tid, st, id).delivering == w.delivering
  {
  }

  lemma StillMinting(w: World, tid: nat, oid: nat, contract: Contract, st: Status, l: Label)
    requires l.Resume?
    ensures DeliverMint(w, tid, oid, contract, st, l.token, l.csv, l.rest).delivering == w.delivering
  {
  }

  /** A poll of the watcher that reads a refund takes access away: read, answered, applied. */
  lemma PollRevokes(seller: Seller, dealId: Text, terms: Terms, labels: seq<Label>, wake: Label, read: Label, go: Label)
    requires wake.Resume? && read.Serve? && go.Resume? && wake.tid == read.tid == go.tid
    requires var w := Live.Run(Start(seller, dealId, terms), labels);
      && wake.tid in w.threads && w.threads[wake.tid] == WatchSleep && w.rec.Some?
      && (w.rt.state == CANCELLED || (w.rt.state == RESOLVED && w.bps == Some(0)))
    ensures var w' := Live.Run(Start(seller, dealId, terms), labels + [wake, read, go]);
      NothingServed(w') && w'.outcome.refunded
  {
    hide *;
    var start := Start(seller, dealId, terms);
    var w, before := Live.Run(start, labels), labels + [wake, read];
    ReadsState(w);
    PollReads(start, labels, wake, read);
    RefreshCloses(seller, dealId, terms, before, go, Read(w));
    AndThen(start, before, go);
    assert before + [go] == labels + [wake, read, go];
    PolledRecord(Live.Run(start, before), go);
  }

  lemma ReadsState(w: World)
    ensures Read(w).state == w.rt.state && Read(w).bps == w.bps
  {
  }

  lemma PollReads(start: World, labels: seq<Label>, wake: Label, read: Label)
    requires wake.Resume? && read.Serve? && wake.tid == read.tid
    requires var w := Live.Run(start, labels);
      wake.tid in w.threads && w.threads[wake.tid] == WatchSleep && w.rec.Some?
    ensures var w, w2 := Live.Run(start, labels), Live.Run(start, labels + [wake, read]);
      w2.rec == w.rec && wake.tid in w2.threads && w2.threads[wake.tid] == WatchReply(Read(w))
  {
    var w := Live.Run(start, labels);
    hide *;
    RunTwice(start, labels, [wake, read]);
    TwoSteps(w, wake, read);
    PolledAgain(w, wake, read);
  }

  lemma AndThen(start: World, labels: seq<Label>, a: Label)
    ensures Live.Run(start, labels + [a]) == Next(Live.Run(start, labels), a)
  {
    hide *;
    RunTwice(start, labels, [a]);
    OneStep(Live.Run(start, labels), a);
  }

  lemma OneStep(w: World, a: Label)
    ensures Live.Run(w, [a]) == Next(w, a)
  {
    hide Next;
    assert Live.Run(w, [a]) == Live.Run(Next(w, a), [a][1..]);
  }

  lemma TwoSteps(w: World, a: Label, b: Label)
    ensures Live.Run(w, [a, b]) == Next(Next(w, a), b)
  {
    hide Next;
    FirstStep(w, a, [b]);
    FirstStep(Next(w, a), b, []);
    assert [a, b] == [a] + [b] && [b] == [b] + [];
  }

  lemma PolledAgain(w: World, wake: Label, read: Label)
    requires wake.Resume? && read.Serve? && wake.tid == read.tid
    requires wake.tid in w.threads && w.threads[wake.tid] == WatchSleep && w.rec.Some?
    ensures var w' := Next(Next(w, wake), read);
      w'.rec == w.rec && wake.tid in w'.threads && w'.threads[wake.tid] == WatchReply(Read(w))
  {
    hide CsAccept, DeliverCheck, DeliverMint, FundSign, NoteDone, Step;
  }

  lemma PolledRecord(w: World, go: Label)
    requires go.Resume? && go.tid in w.threads && w.threads[go.tid].WatchReply? && w.rec.Some?
    ensures Next(w, go).rec.Some?
  {
    hide CsAccept, DeliverCheck, DeliverMint, FundSign, NoteDone, Step;
  }

  // ------------------------------------------------------------------ no work before the money

  lemma {:induction false} FulfillingIsFunded(chain: seq<Link<Payload>>, end: State, r: nat)
    requires Path(chain, end) && 0 < r <= |chain| && chain[r - 1].to == FULFILLING
    ensures Fundings(chain) >= 1
    decreases |chain|
  {
    var n := |chain| - 1;
    if r - 1 < n { FulfillingIsFunded(chain[..n], chain[n].from, r); }
  }

  /** Work for the buyer: a delivery under way, a token, or a signature over what is delivered. */
  ghost predicate Worked(w: World) {
    || HasToken(w) || (exists i :: i in w.threads && w.threads[i].IsDelivery())
    || exists s :: s in w.signed && (s.SignedEvidence? || s.SignedDelivery?)
  }

  lemma TaskIsFunded(w: World, i: nat)
    requires Inv(w) && i in w.threads && w.threads[i].IsDelivery()
    ensures Funded(w.rt.state)
  {
    hide Guarded, WorldOk, Funded;
    assert ThreadOk(w, w.threads[i]);
  }

  lemma WorkIsSignedFunded(w: World, s: Signed)
    requires Inv(w) && s in w.signed && (s.SignedEvidence? || s.SignedDelivery?)
    ensures Fundings(w.rt.chain) >= 1
  {
    hide Guarded, ThreadsOk, RecordOk, CommittedOk, LinksOk, Fundings;
    assert SignedOk(w, s) && Was(w, s.revision, FULFILLING);
    FulfillingIsFunded(w.rt.chain, w.rt.state, s.revision);
  }

  /** No delivery starts, no file is minted and nothing is signed for one before the escrow is funded, once. */
  lemma NoWorkBeforeFunding(seller: Seller, dealId: Text, terms: Terms, labels: seq<Label>)
    ensures var w := Live.Run(Start(seller, dealId, terms), labels); Worked(w) ==> Fundings(w.rt.chain) == 1
  {
    var w := Live.Run(Start(seller, dealId, terms), labels);
    Reached(seller, dealId, terms, labels);
    PathCounts(w.rt.chain, w.rt.state);
    hide Live.Run, Start, Told, Guarded, ThreadsOk, SignaturesOk, CommittedOk, LinksOk, Deliveries, Fundings, Path,
      ArtifactOk, Shown;
    if exists i :: i in w.threads && w.threads[i].IsDelivery() {
      var i :| i in w.threads && w.threads[i].IsDelivery();
      TaskIsFunded(w, i);
    } else if !HasToken(w) && Worked(w) {
      var s :| s in w.signed && (s.SignedEvidence? || s.SignedDelivery?);
      WorkIsSignedFunded(w, s);
    }
  }

  /** Nor is any of it handed out or signed before a notification of the terms, an open gate and anchors. */
  lemma NoDeliveryUngated(seller: Seller, dealId: Text, terms: Terms, labels: seq<Label>)
    ensures var w := Live.Run(Start(seller, dealId, terms), labels);
      HasToken(w) || (exists s :: s in w.signed && (s.SignedEvidence? || s.SignedDelivery?)) ==>
        Notifies(labels, OfTerms(terms)) && Opens(labels) && Anchors(labels)
  {
    var start := Start(seller, dealId, terms);
    var w := Live.Run(start, labels);
    Reached(seller, dealId, terms, labels);
    StartInv(seller, dealId, terms);
    GivenByLabels(start, labels);
    hide Live.Run, Told, ThreadsOk, Guarded, Consistent, Deliveries, Opens, Anchors, Notifies;
    if exists s :: s in w.signed && (s.SignedEvidence? || s.SignedDelivery?) {
      var s :| s in w.signed && (s.SignedEvidence? || s.SignedDelivery?);
      assert SignedOk(w, s);
    }
  }

  /** What a record shows of the Runtime was true once. */
  lemma RecordsShowWhatWas(seller: Seller, dealId: Text, terms: Terms, labels: seq<Label>)
    ensures var w := Live.Run(Start(seller, dealId, terms), labels);
      w.rec.Some? && w.rec.value.runtimeState.Some? ==> exists r :: Was(w, r, w.rec.value.runtimeState.value)
  {
    Reached(seller, dealId, terms, labels);
    hide Live.Run, Start, Told, ThreadsOk, Guarded, SignaturesOk, Consistent, Deliveries;
  }
}
