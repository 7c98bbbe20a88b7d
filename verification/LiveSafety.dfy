/** What every run of the live seller keeps. */
module LiveSafety {
  import opened Sorting
  import opened Extension
  import opened Agreement
  import opened Live
  import Settlement

  // ------------------------------------------------------------------ the invariant

  /** The `delivered` commands the Runtime has committed. */
  function Committed(w: World): seq<Command<Payload>> { Deliveries(w.rt.chain) }

  predicate Known(w: World) { w.passed != {} }

  ghost predicate VerifiedBuyer(w: World, buyer: Text) { exists a :: a in w.passed && a.buyer == buyer }

  /** The record holds a token, and with it an artifact. */
  predicate HasToken(w: World) { w.rec.Some? && w.rec.value.token.Some? }

  /** The escrow is funded and delivery may still commit. */
  predicate Undelivered(w: World) { Funded(w.rt.state) && Committed(w) == [] }

  /** At revision `r` the Runtime was in state `s`. */
  predicate Was(w: World, r: int, s: State) {
    0 <= r <= |w.rt.chain| && s == if r == 0 then PROPOSED else w.rt.chain[r - 1].to
  }

  /** An answer given earlier was true when it was given. */
  predicate Snapshot(w: World, st: Status) {
    && st.terms == w.terms && Was(w, st.revision, st.state)
    && (Past(st.state) ==> Past(w.rt.state)) && (Funded(st.state) ==> Funded(w.rt.state))
  }

  /** A request to countersign these terms. */
  predicate Presented(w: World, req: CountersignRequest) {
    req in w.given.requests && TermsHashOf(req.contract) == w.terms
  }

  /** A status to countersign on. */
  predicate Formation(w: World, st: Status) { Snapshot(w, st) && st.state in {PROPOSED, COMMITTED} }

  /** Notified, with the gate open and anchors to sign over. */
  predicate Cleared(w: World) { w.given.notified && w.given.gate && w.given.anchors }

  /** A status to deliver on, read with the gate open and anchors to sign over. */
  predicate Ready(w: World, st: Status) {
    Known(w) && Undelivered(w) && Was(w, st.revision, FULFILLING) && Cleared(w)
  }

  /** An answer to a rejection that was asked for. */
  predicate Answer(w: World, kind: CommandType) { kind in {Appealed, RefundConsented} && kind in w.given.asked }

  /** A command bound to the seller was signed as it stands: kind, terms, delivery hash and revision. */
  predicate CommandSigned(log: seq<Signed>, c: Command<Payload>) {
    match c.kind
    case Delivered =>
      && c.payload.deliveryHash.Some?
      && SignedDelivery(c.payload.terms, c.payload.deliveryHash.value, c.expectedRevision) in log
    case Appealed => SignedRejectionAnswer(Appealed, c.payload.terms, c.expectedRevision) in log
    case RefundConsented => SignedRejectionAnswer(RefundConsented, c.payload.terms, c.expectedRevision) in log
    case _ => true
  }

  predicate ThreadOk(w: World, t: Thread) {
    (t.IsDelivery() ==> Funded(w.rt.state) && w.given.notified) &&
    match t
    case CsStatus(req) => req in w.given.requests
    case CsStatusReply(req, st) => req in w.given.requests && Snapshot(w, st)
    case CsCard(req, st) => Presented(w, req) && Formation(w, st)
    case CsCardReply(req, st, _) => Presented(w, req) && Formation(w, st)
    case NoteStatus => w.given.notified
    case NoteStatusReply(st) => w.given.notified && Snapshot(w, st)
    case FundRead(accepted, terms) => Known(w) && TermsHashOf(accepted) == w.terms && terms == w.terms
    case FundReply(accepted, terms, _) => Known(w) && TermsHashOf(accepted) == w.terms && terms == w.terms
    case RejectionStatus(kind, terms) => Known(w) && terms == w.terms && Answer(w, kind)
    case RejectionReply(kind, terms, st) => Known(w) && terms == w.terms && Snapshot(w, st) && Answer(w, kind)
    case RejectionSubmit(command) =>
      Answer(w, command.kind) && Was(w, command.expectedRevision, REJECTED) && CommandSigned(w.signed, command)
    case RefreshReply(st) => Snapshot(w, st)
    case ObserveReply(st) => Snapshot(w, st)
    case WatchReply(st) => Snapshot(w, st)
    case WatchDecide(state) => Terminal(state) ==> w.outcome.refunded || w.outcome.kept
    case DeliverStatus(terms) => Known(w) && terms == w.terms && w.given.gate
    case DeliverStatusReply(terms, st) =>
      && Known(w) && terms == w.terms && w.given.gate && Snapshot(w, st)
      && (st.state == FULFILLING ==> Committed(w) == [])
    case DeliverFunding(terms, st) => terms == w.terms && Ready(w, st)
    case DeliverFunded(terms, st) => terms == w.terms && Ready(w, st)
    case DeliverGenerating(oid, contract, st) =>
      && Ready(w, st) && TermsHashOf(contract) == w.terms && oid < w.nextOid
      && (w.rec.Some? && w.rec.value.oid == oid ==> w.rec.value.state != PROPOSED_LOCAL)
    case DeliverMinted(st) => Ready(w, st)
    case DeliverEvidence(st) => Ready(w, st)
    case DeliverRegistered(st) => Ready(w, st)
    case DeliverSubmit(command) =>
      && command.kind == Delivered && command.actor == Actor.Seller && command.payload.terms == w.terms
      && Undelivered(w)
      && Was(w, command.expectedRevision, FULFILLING) && CommandSigned(w.signed, command)
    case DeliverObserve(st) => Snapshot(w, st)
    case DeliverProbeReply(st) => Snapshot(w, st)
    case _ => true
  }

  ghost predicate ThreadsOk(w: World) {
    forall tid :: tid in w.threads ==> tid < w.nextTid && ThreadOk(w, w.threads[tid])
  }

  /** The guard sets are exact: one delivery task while `delivering`, one watcher while `watching`. */
  ghost predicate Guarded(w: World) {
    && (forall i, j :: i in w.threads && j in w.threads ==>
          (w.threads[i].IsDelivery() && w.threads[j].IsDelivery() ==> i == j))
    && (forall i, j :: i in w.threads && j in w.threads ==>
          (w.threads[i].IsWatcher() && w.threads[j].IsWatcher() ==> i == j))
    && (w.delivering <==> exists i :: i in w.threads && w.threads[i].IsDelivery())
    && (w.watching <==> exists i :: i in w.threads && w.threads[i].IsWatcher())
  }

  /** Token, manifest, hash and bytes come and stay together. */
  predicate ArtifactOk(r: Record) {
    if r.token.None? then r.manifest.None? && r.deliveryHash.None? && r.csv.None? && r.state != DELIVERED_LOCAL
    else
      && r.manifest.Some? && r.csv.Some?
      && r.deliveryHash == Some(OfManifest(r.manifest.value))
      && r.manifest.value.contentHash == OfBytes(r.csv.value)
      && r.manifest.value.locatorToken == r.token.value
  }

  /** The Runtime was in that state once. */
  ghost predicate Shown(w: World, s: Option<State>) { s.Some? ==> exists r :: Was(w, r, s.value) }

  ghost predicate RecordOk(w: World, r: Record) {
    && TermsHashOf(r.contract) == w.terms
    && r.oid < w.nextOid
    && ArtifactOk(r)
    && (r.token.Some? ==> Funded(w.rt.state) && w.given.notified && w.given.gate && w.given.anchors)
    && (r.token.Some? && !w.stale ==> r.state == DELIVERED_LOCAL)
    && (r.revoked ==> w.outcome.refunded)
    && Shown(w, r.runtimeState)
    && (r.state != PROPOSED_LOCAL ==> VerifiedBuyer(w, r.buyer))
  }

  /** The acceptance is of just what was requested, on that chain. */
  predicate Answered(a: Acceptance, req: CountersignRequest, chainId: nat) {
    && a.contract == req.contract && a.buyer == req.buyer && a.buyerAgreementSig == req.buyerAgreementSig
    && ValidateRuntimeCard(a.card, a.contract.terms) == Some(chainId)
  }

  ghost predicate SignedOk(w: World, s: Signed) {
    match s
    case SignedAgreement(req, chainId, _, revision) =>
      && Presented(w, req) && (Was(w, revision, PROPOSED) || Was(w, revision, COMMITTED))
      && exists a :: a in w.passed && Answered(a, req, chainId)
    case SignedActivation(context, r) =>
      var a := context.activation;
      && Known(w) && context.buyerReady && context.hasDomain
      && a.terms == w.terms
      && w.terms.OfTerms? && a.sellerPayout == w.terms.terms.payout
      && a.sellerAgent == w.seller.address
      && Settlement.UsdcBaseUnits(w.terms.terms.amount) == Some(a.amount)
      && a.buyerAgent == r.buyer
      && (r.state != PROPOSED_LOCAL ==> VerifiedBuyer(w, a.buyerAgent))
    case SignedEvidence(terms, _, revision) =>
      Known(w) && terms == w.terms && Was(w, revision, FULFILLING) && Cleared(w)
    case SignedDelivery(terms, _, revision) =>
      Known(w) && terms == w.terms && Was(w, revision, FULFILLING) && Cleared(w)
    case SignedRejectionAnswer(kind, terms, revision) =>
      Known(w) && terms == w.terms && Was(w, revision, REJECTED) && Answer(w, kind)
  }

  ghost predicate SignaturesOk(w: World) {
    && (forall s :: s in w.signed ==> SignedOk(w, s))
    && (forall a :: a in w.passed ==> TermsHashOf(a.contract) == w.terms && Passed(w.seller, w.dealId, a))
    && (w.dealTerms.Some? ==> w.dealTerms == Some(w.terms) && Known(w))
  }

  /** What was committed was committed under the deal's terms and after formation; no refund goes before it. */
  predicate CommittedOk(w: World) {
    && (Committed(w) != [] ==> Past(w.rt.state) && Committed(w)[0].payload.terms == w.terms)
    && (w.rt.state == CANCELLED ==> Committed(w) != [])
  }

  /** Every command of the seller the Runtime ever applied was signed by it. */
  predicate LinksOk(w: World) {
    forall i :: 0 <= i < |w.rt.chain| && w.rt.chain[i].driver.ByCommand? ==>
      CommandSigned(w.signed, w.rt.chain[i].driver.command)
  }

  ghost predicate WorldOk(w: World) {
    && w.terms.OfTerms?
    && Consistent(w.rt)
    && (w.rec.Some? ==> RecordOk(w, w.rec.value))
    && SignaturesOk(w)
    && CommittedOk(w)
    && LinksOk(w)
  }

  ghost predicate Inv(w: World) {
    WorldOk(w) && ThreadsOk(w) && Guarded(w)
  }

  // ------------------------------------------------------------------ stability

  /** The Runtime only moves on: its chain grows, and neither formation nor funding is taken back. */
  predicate MovesOn(rt: Machine<Payload>, rt': Machine<Payload>) {
    && rt.chain <= rt'.chain
    && (Past(rt.state) ==> Past(rt'.state)) && (Funded(rt.state) ==> Funded(rt'.state))
  }

  predicate GivenMore(g: Given, g': Given) {
    && g.requests <= g'.requests && g.asked <= g'.asked && (g.notified ==> g'.notified)
    && (g.gate ==> g'.gate) && (g.anchors ==> g'.anchors)
  }

  /** What a step leaves true for every thread that is not a delivery task. */
  predicate Grows(w: World, w': World) {
    && w'.seller == w.seller && w'.dealId == w.dealId && w'.terms == w.terms
    && w.nextOid <= w'.nextOid && w.passed <= w'.passed && (w.stale ==> w'.stale)
    && MovesOn(w.rt, w'.rt) && w.signed <= w'.signed
    && GivenMore(w.given, w'.given)
    && (w.outcome.refunded ==> w'.outcome.refunded) && (w.outcome.kept ==> w'.outcome.kept)
  }

  /** What a step by anyone else leaves true for the delivery task. */
  predicate Keeps(w: World, w': World) {
    && Grows(w, w')
    && Committed(w') == Committed(w)
    && (w'.rec.Some? && w'.rec.value.oid < w.nextOid ==>
          && w.rec.Some? && w'.rec.value.oid == w.rec.value.oid
          && (w.rec.value.state != PROPOSED_LOCAL ==> w'.rec.value.state != PROPOSED_LOCAL))
  }

  lemma GrowsThread(w: World, w': World, t: Thread)
    requires Grows(w, w') && ThreadOk(w, t) && !t.IsDelivery()
    ensures ThreadOk(w', t)
  {
  }

  lemma KeepsThread(w: World, w': World, t: Thread)
    requires Keeps(w, w') && ThreadOk(w, t)
    ensures ThreadOk(w', t)
  {
    if !t.IsDelivery() { GrowsThread(w, w', t); }
  }

  lemma GrowsShown(w: World, w': World, s: Option<State>)
    requires Grows(w, w') && Shown(w, s)
    ensures Shown(w', s)
  {
    if s.Some? {
      var r :| Was(w, r, s.value);
      assert Was(w', r, s.value);
    }
  }

  lemma GrowsSigned(w: World, w': World, s: Signed)
    requires Grows(w, w') && SignedOk(w, s)
    ensures SignedOk(w', s)
  {
  }

  /** A thread that is not the delivery task moves on, ends, or a new one starts beside it. */
  lemma OthersOk(w: World, w': World, tid: nat)
    requires Inv(w) && Keeps(w, w') && w.nextTid <= w'.nextTid
    requires forall i :: i in w'.threads && i != tid ==> i in w.threads && w'.threads[i] == w.threads[i]
    requires tid in w'.threads ==> tid < w'.nextTid && ThreadOk(w', w'.threads[tid])
    ensures ThreadsOk(w')
  {
    forall i | i in w'.threads ensures i < w'.nextTid && ThreadOk(w', w'.threads[i]) {
      if i != tid { KeepsThread(w, w', w.threads[i]); }
    }
  }

  /** The delivery task `tid` moves: no other thread is a delivery task. */
  lemma OthersOkOnDelivery(w: World, w': World, tid: nat)
    requires Inv(w) && Grows(w, w') && w.nextTid <= w'.nextTid
    requires tid in w.threads && w.threads[tid].IsDelivery()
    requires forall i :: i in w'.threads && i != tid ==>
      (i in w.threads && w'.threads[i] == w.threads[i]) || (i < w'.nextTid && w'.threads[i] == WatchStatus)
    requires tid in w'.threads ==> ThreadOk(w', w'.threads[tid])
    ensures ThreadsOk(w')
  {
    forall i | i in w'.threads ensures i < w'.nextTid && ThreadOk(w', w'.threads[i]) {
      if i != tid && i in w.threads && w'.threads[i] == w.threads[i] { GrowsThread(w, w', w.threads[i]); }
    }
  }

  /** One thread is replaced by one of the same role. */
  lemma SameRole(w: World, w': World, tid: nat)
    requires Guarded(w) && w'.delivering == w.delivering && w'.watching == w.watching
    requires tid in w.threads && w'.threads.Keys == w.threads.Keys
    requires forall i :: i in w.threads && i != tid ==> w'.threads[i] == w.threads[i]
    requires w'.threads[tid].IsDelivery() == w.threads[tid].IsDelivery()
    requires w'.threads[tid].IsWatcher() == w.threads[tid].IsWatcher()
    ensures Guarded(w')
  {
    forall i | i in w.threads
      ensures w'.threads[i].IsDelivery() == w.threads[i].IsDelivery() &&
        w'.threads[i].IsWatcher() == w.threads[i].IsWatcher()
    {
    }
    if w.delivering {
      var i :| i in w.threads && w.threads[i].IsDelivery();
      assert i in w'.threads && w'.threads[i].IsDelivery();
    }
    if w.watching {
      var i :| i in w.threads && w.threads[i].IsWatcher();
      assert i in w'.threads && w'.threads[i].IsWatcher();
    }
  }

  /** A thread of neither role ends. */
  lemma BystanderEnds(w: World, w': World, tid: nat)
    requires Guarded(w) && w'.delivering == w.delivering && w'.watching == w.watching
    requires tid in w.threads && !w.threads[tid].IsDelivery() && !w.threads[tid].IsWatcher()
    requires w'.threads == w.threads - {tid}
    ensures Guarded(w')
  {
    if w.delivering {
      var i :| i in w.threads && w.threads[i].IsDelivery();
      assert i in w'.threads && w'.threads[i].IsDelivery();
    }
    if w.watching {
      var i :| i in w.threads && w.threads[i].IsWatcher();
      assert i in w'.threads && w'.threads[i].IsWatcher();
    }
  }

  /** A thread starts: of neither role, or the first of its role. */
  lemma Starts(w: World, w': World, tid: nat, t: Thread)
    requires Guarded(w) && tid !in w.threads
    requires w'.threads == w.threads[tid := t]
    requires w'.delivering == (w.delivering || t.IsDelivery()) && w'.watching == (w.watching || t.IsWatcher())
    requires t.IsDelivery() ==> !w.delivering
    requires t.IsWatcher() ==> !w.watching
    ensures Guarded(w')
  {
    assert w'.threads[tid] == t;
    if w.delivering {
      var i :| i in w.threads && w.threads[i].IsDelivery();
      assert i in w'.threads && w'.threads[i].IsDelivery();
    }
    if w.watching {
      var i :| i in w.threads && w.threads[i].IsWatcher();
      assert i in w'.threads && w'.threads[i].IsWatcher();
    }
  }

  /** The only delivery task, or the only watcher, ends. */
  lemma LastEnds(w: World, w': World, tid: nat)
    requires Guarded(w) && tid in w.threads && w'.threads == w.threads - {tid}
    requires w.threads[tid].IsDelivery() || w.threads[tid].IsWatcher()
    requires w.threads[tid].IsDelivery() ==> !w'.delivering && w'.watching == w.watching
    requires w.threads[tid].IsWatcher() ==> !w'.watching && w'.delivering == w.delivering
    ensures Guarded(w')
  {
    if w.threads[tid].IsDelivery() && w.watching {
      var i :| i in w.threads && w.threads[i].IsWatcher();
      assert i in w'.threads && w'.threads[i].IsWatcher();
    }
    if w.threads[tid].IsWatcher() && w.delivering {
      var i :| i in w.threads && w.threads[i].IsDelivery();
      assert i in w'.threads && w'.threads[i].IsDelivery();
    }
  }
}
