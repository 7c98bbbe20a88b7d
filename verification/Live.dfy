/**
 The live seller against a Coordination Runtime, for one deal.

 A coroutine of the seller is a `Thread` cut at its awaits. Between two awaits a segment runs
 alone. The Runtime answers outstanding requests one by one, may refuse or lose any of them,
 and moves on its own along the agreement's edges. A reply may arrive arbitrarily late; a lost
 request was handled before it was lost or never is.
 */
module Live {
  import opened Sorting
  import opened Extension
  import opened Agreement
  import Settlement

  // ------------------------------------------------------------------ the parties' data

  datatype Payload = Payload(terms: Digest, deliveryHash: Option<ManifestHash>, bps: nat)

  /** The delivery manifest: it names the deliverable's hash and the token its locator carries. */
  datatype Manifest = Manifest(contentHash: ContentHash, locatorToken: nat, rest: Text)

  datatype ContentHash = OfBytes(bytes: Text)
  datatype ManifestHash = OfManifest(manifest: Manifest)

  datatype DealState = PROPOSED_LOCAL | ACCEPTED_LOCAL | DELIVERED_LOCAL

  /** `oid` is the identity of the record object; two records of one deal never share it. */
  datatype Record = Record(
    oid: nat, negotiation: nat, state: DealState, runtimeState: Option<State>, buyer: Text, contract: Contract,
    token: Option<nat>, revoked: bool, manifest: Option<Manifest>, deliveryHash: Option<ManifestHash>,
    csv: Option<Text>)

  /** An agreement status read at some moment. */
  datatype Status = Status(state: State, revision: nat, terms: Digest, bps: Option<nat>)

  datatype Activation = Activation(
    terms: Digest, buyerAgent: Text, sellerAgent: Text, sellerPayout: Text, amount: nat, rest: Text)

  datatype FundingContext = FundingContext(buyerReady: bool, hasDomain: bool, activation: Activation)

  datatype CountersignRequest = CountersignRequest(
    negotiation: nat, contract: Contract, buyer: Text, buyerAgreementSig: Signature)

  datatype Thread =
    | CsStatus(req: CountersignRequest)
    | CsStatusReply(req: CountersignRequest, st: Status)
    | CsCard(req: CountersignRequest, st: Status)
    | CsCardReply(req: CountersignRequest, st: Status, card: Card)
    | CsSubmit
    | NoteStatus
    | NoteStatusReply(st: Status)
    | FundRead(accepted: Contract, terms: Digest)
    | FundReply(accepted: Contract, terms: Digest, context: FundingContext)
    | FundSubmit
    | RejectionStatus(kind: CommandType, terms: Digest)
    | RejectionReply(kind: CommandType, terms: Digest, st: Status)
    | RejectionSubmit(command: Command<Payload>)
    | RefreshStatus
    | RefreshReply(st: Status)
    | ObserveReply(st: Status)
    | WatchStatus
    | WatchReply(st: Status)
    | WatchDecide(state: State)
    | WatchSleep
    | DeliverStatus(terms: Digest)
    | DeliverStatusReply(terms: Digest, st: Status)
    | DeliverFunding(terms: Digest, st: Status)
    | DeliverFunded(terms: Digest, st: Status)
    | DeliverGenerating(oid: nat, contract: Contract, st: Status)
    | DeliverMinted(st: Status)
    | DeliverEvidence(st: Status)
    | DeliverRegistered(st: Status)
    | DeliverSubmit(command: Command<Payload>)
    | DeliverObserve(st: Status)
    | DeliverProbe
    | DeliverProbeReply(st: Status)
    | DeliverSleep
  {
    predicate IsWatcher() { WatchStatus? || WatchReply? || WatchDecide? || WatchSleep? }

    predicate IsDelivery() {
      || DeliverStatus? || DeliverStatusReply? || DeliverFunding? || DeliverFunded? || DeliverGenerating?
      || DeliverMinted? || DeliverEvidence? || DeliverRegistered? || DeliverSubmit? || DeliverObserve?
      || DeliverProbe? || DeliverProbeReply? || DeliverSleep?
    }
  }

  /**
   Everything the seller ever put its key to, in order: for which record, on a status read at which revision, or
   against which funding context and record.
   */
  datatype Signed =
    | SignedAgreement(req: CountersignRequest, chainId: nat, oid: nat, revision: int)
    | SignedActivation(context: FundingContext, record: Record)
    | SignedEvidence(terms: Digest, hash: ManifestHash, revision: int)
    | SignedDelivery(terms: Digest, hash: ManifestHash, revision: int)
    | SignedRejectionAnswer(kind: CommandType, terms: Digest, revision: int)

  /**
   What this seller was given so far: requests to countersign, answers its caller asked for, a notification of these
   terms, an open signing gate, anchors to sign over.
   */
  datatype Given = Given(
    requests: set<CountersignRequest>, asked: set<CommandType>, notified: bool, gate: bool, anchors: bool)

  /** The last five fields are history no segment reads. */
  datatype World = World(
    seller: Seller, dealId: Text,
    rt: Machine<Payload>, terms: Digest, bps: Option<nat>,
    rec: Option<Record>, dealTerms: Option<Digest>, delivering: bool, watching: bool,
    threads: map<nat, Thread>, nextTid: nat, nextOid: nat,
    passed: set<Acceptance>, signed: seq<Signed>, outcome: Outcome, stale: bool, given: Given)

  /** What a refresh has applied so far: a refund, or an outcome that keeps the artifact available. */
  datatype Outcome = Outcome(refunded: bool, kept: bool)

  // ------------------------------------------------------------------ small pieces

  /** The Runtime has left formation for good. */
  predicate Past(s: State) { s != PROPOSED && s != COMMITTED }

  predicate Refund(st: Status) {
    st.state == CANCELLED || (st.state == RESOLVED && st.bps == Some(0))
  }

  predicate Reclaimable(r: Record) {
    && (r.runtimeState.Some? ==> r.runtimeState.value in {PROPOSED, EXPIRED, CANCELLED})
    && r.state != DELIVERED_LOCAL
  }

  function Read(w: World): Status { Status(w.rt.state, w.rt.revision, w.terms, w.bps) }

  function Put(w: World, tid: nat, t: Thread): World { w.(threads := w.threads[tid := t]) }

  function End(w: World, tid: nat): World { w.(threads := w.threads - {tid}) }

  function Spawn(w: World, t: Thread): World {
    w.(threads := w.threads[w.nextTid := t], nextTid := w.nextTid + 1)
  }

  function Sign(w: World, s: Signed): World { w.(signed := w.signed + [s]) }

  /** `observeRuntimeStatus` on a known deal. */
  function Observed(w: World, st: Status): World
    requires w.rec.Some?
  {
    w.(rec := Some(w.rec.value.(runtimeState := Some(st.state))))
  }

  /** The gate every artifact download goes through. */
  datatype Served = Nothing | ManifestBytes(manifest: Manifest) | CsvBytes(bytes: Text)

  datatype File = ManifestJson | DataCsv | OtherFile

  function ArtifactFor(w: World, file: File, token: nat): Served {
    if w.rec.None? || w.rec.value.token != Some(token) || w.rec.value.revoked then Nothing
    else
      match file
      case ManifestJson => if w.rec.value.manifest.Some? then ManifestBytes(w.rec.value.manifest.value) else Nothing
      case DataCsv => if w.rec.value.csv.Some? then CsvBytes(w.rec.value.csv.value) else Nothing
      case OtherFile => Nothing
  }

  // ------------------------------------------------------------------ countersign

  /** After the status read: same terms, and a proposal or our own committed acceptance. */
  function CsCheck(w: World, tid: nat, req: CountersignRequest, st: Status): World {
    if st.terms != TermsHashOf(req.contract) then End(w, tid)
    else if st.state != PROPOSED && st.state != COMMITTED then End(w, tid)
    else Put(w, tid, CsCard(req, st))
  }

  function NewRecord(w: World, req: CountersignRequest): Record {
    Record(w.nextOid, req.negotiation, PROPOSED_LOCAL, None, req.buyer, req.contract, None, false, None, None, None)
  }

  /** `registerLiveDeal` and the observation after it; the record of an earlier attempt is kept. */
  function Registered(w: World, tid: nat, req: CountersignRequest, st: Status): World {
    var r := if w.rec.Some? then w.rec.value else NewRecord(w, req);
    End(w, tid).(
      rec := Some(r.(runtimeState := Some(st.state))),
      nextOid := w.nextOid + 1,
      stale := w.stale || (Past(w.rt.state) && w.rec.None?))
  }

  /** `accept` on the registered record, and the terms remembered before the lossy write. */
  function Countersign(w: World, accepted: Contract, a: Acceptance): World
    requires w.rec.Some?
  {
    w.(rec := Some(w.rec.value.(contract := accepted, state := ACCEPTED_LOCAL)),
       dealTerms := Some(TermsHashOf(accepted)),
       passed := w.passed + {a},
       stale := w.stale || Past(w.rt.state))
  }

  /** After the card: register, observe, countersign, then submit or reconcile. */
  function CsAccept(w: World, tid: nat, req: CountersignRequest, st: Status, card: Card, v: Validation): World {
    var chainId := ValidateRuntimeCard(card, req.contract.terms);
    if chainId.None? then End(w, tid)
    else if w.rec.Some? && (w.rec.value.negotiation != req.negotiation || w.rec.value.buyer != req.buyer)
    then End(w, tid)
    else
      var w1 := Registered(w, tid, req, st);
      var buyer := w1.rec.value.buyer;
      var accepted := AcceptTerms(w.seller, w.dealId, req.contract, buyer, req.buyerAgreementSig, chainId.value, v);
      if accepted.None? then w1
      else
        var a := Acceptance(req.contract, buyer, req.buyerAgreementSig, card, v);
        var s := SignedAgreement(req, chainId.value, w1.rec.value.oid, st.revision);
        var w2 := Sign(Countersign(w1, accepted.value, a), s);
        if st.state == COMMITTED then w2 else Put(w2, tid, CsSubmit)
  }

  // ------------------------------------------------------------------ notification, funding, rejection

  /** `active` is the signing gate's answer for the delivery this acknowledgement may start. */
  function NoteDone(w: World, tid: nat, st: Status, active: bool): World {
    if st.state != FULFILLING || w.rec.None? then End(w, tid)
    else
      var w1 := Observed(End(w, tid), st);
      if w1.delivering then w1
      else Spawn(Gated(w1, active).(delivering := true), DeliverStart(w1, active))
  }

  function Gated(w: World, active: bool): World { w.(given := w.given.(gate := w.given.gate || active)) }

  function FundStart(w: World): World {
    if w.dealTerms.None? || w.rec.None? then w
    else Spawn(w, FundRead(w.rec.value.contract, w.dealTerms.value))
  }

  /** Co-sign the read-back Activation when it agrees with the countersigned terms. */
  function FundSign(w: World, tid: nat, accepted: Contract, terms: Digest, context: FundingContext): World {
    var a := context.activation;
    if w.rec.None? || !context.buyerReady || !context.hasDomain then End(w, tid)
    else if || a.terms != terms
            || a.sellerPayout != accepted.terms.payout
            || a.sellerAgent != w.seller.address
            || a.buyerAgent != w.rec.value.buyer
            || Settlement.UsdcBaseUnits(accepted.terms.amount) != Some(a.amount)
         then End(w, tid)
    else Put(Sign(w, SignedActivation(context, w.rec.value)), tid, FundSubmit)
  }

  function RejectionSign(w: World, tid: nat, kind: CommandType, terms: Digest, st: Status, id: nat): World {
    if w.rec.None? then End(w, tid)
    else
      var w1 := Observed(w, st);
      if st.state != REJECTED then End(w1, tid)
      else
        var command := Command(id, kind, Actor.Seller, st.revision, Payload(terms, None, 0));
        Put(Sign(w1, SignedRejectionAnswer(kind, terms, st.revision)), tid, RejectionSubmit(command))
  }

  /** The tail of every write whose reply carries a status. */
  function ObserveDone(w: World, tid: nat, st: Status): World {
    if w.rec.None? then End(w, tid) else Observed(End(w, tid), st)
  }

  // ------------------------------------------------------------------ outcome refresh

  /** `refreshOutcome` after its read: observe, and revoke on a refund. */
  function Refreshed(w: World, st: Status): World
    requires w.rec.Some?
  {
    var w1 := Observed(w, st);
    if Refund(st) then w1.(rec := Some(w1.rec.value.(revoked := true)), outcome := w.outcome.(refunded := true))
    else if Terminal(st.state) then w1.(outcome := w.outcome.(kept := true))
    else w1
  }

  function RefreshDone(w: World, tid: nat, st: Status): World {
    if w.rec.None? then End(w, tid) else Refreshed(End(w, tid), st)
  }

  function WatchDone(w: World, tid: nat, st: Status): World {
    if w.rec.None? then Put(w, tid, WatchSleep) else Put(Refreshed(w, st), tid, WatchDecide(st.state))
  }

  function WatchNext(w: World, tid: nat, state: State): World {
    if Terminal(state) then End(w, tid).(watching := false) else Put(w, tid, WatchSleep)
  }

  // ------------------------------------------------------------------ delivery

  /** The first segment of `runDelivery`: with the gate shut or no terms it fails into the probe. */
  function DeliverStart(w: World, active: bool): Thread {
    if active && w.dealTerms.Some? then DeliverStatus(w.dealTerms.value) else DeliverProbe
  }

  function DeliverEnd(w: World, tid: nat): World { End(w, tid).(delivering := false) }

  /** `prepareDelivery` up to its await: the record object is held across it. */
  function DeliverPrepare(w: World, tid: nat, st: Status): World {
    if w.rec.None? || w.rec.value.state == PROPOSED_LOCAL then Put(w, tid, DeliverProbe)
    else Put(w, tid, DeliverGenerating(w.rec.value.oid, w.rec.value.contract, st))
  }

  function DeliverCheck(w: World, tid: nat, terms: Digest, st: Status, anchored: bool, domain: bool): World {
    if w.rec.None? then Put(w, tid, DeliverProbe)
    else
      var w1 := Observed(w, st);
      if st.state != FULFILLING || !anchored then Put(w1, tid, DeliverProbe)
      else
        var w2 := w1.(given := w1.given.(anchors := true));
        if !domain then Put(w2, tid, DeliverFunding(terms, st)) else DeliverPrepare(w2, tid, st)
  }

  /** Generation finished: the held record gets its artifact and token, and the envelope is signed. */
  function DeliverMint(
      w: World, tid: nat, oid: nat, contract: Contract, st: Status, token: nat, csv: Text, rest: Text): World {
    if w.rec.None? then Put(w, tid, DeliverProbe)
    else
      var manifest := Manifest(OfBytes(csv), token, rest);
      if w.rec.value.oid != oid then
        Put(Sign(w, SignedEvidence(TermsHashOf(contract), OfManifest(manifest), st.revision)), tid, DeliverMinted(st))
      else
        var r := w.rec.value.(token := Some(token), manifest := Some(manifest),
                              deliveryHash := Some(OfManifest(manifest)), csv := Some(csv), state := DELIVERED_LOCAL);
        Put(Sign(w.(rec := Some(r)), SignedEvidence(TermsHashOf(r.contract), OfManifest(manifest), st.revision)), tid,
          DeliverMinted(st))
  }

  /** The token exists: its watcher starts unless one runs, then the evidence is sent. */
  function DeliverWatch(w: World, tid: nat, st: Status): World {
    var w1 := if w.watching then w else Spawn(w.(watching := true), WatchStatus);
    Put(w1, tid, DeliverEvidence(st))
  }

  function DeliverCommand(w: World, tid: nat, st: Status, id: nat): World {
    if w.rec.None? || w.rec.value.deliveryHash.None? then Put(w, tid, DeliverProbe)
    else
      var r := w.rec.value;
      var terms := TermsHashOf(r.contract);
      var command := Command(id, Delivered, Actor.Seller, st.revision, Payload(terms, r.deliveryHash, 0));
      Put(Sign(w, SignedDelivery(terms, r.deliveryHash.value, st.revision)), tid, DeliverSubmit(command))
  }

  function DeliverDone(w: World, tid: nat, st: Status): World {
    if w.rec.None? then Put(w, tid, DeliverProbe) else Observed(DeliverEnd(w, tid), st)
  }

  function DeliverProbed(w: World, tid: nat, st: Status, expired: bool): World {
    if w.rec.None? then DeliverPause(w, tid, expired)
    else
      var w1 := Observed(w, st);
      if st.state != FULFILLING then DeliverEnd(w1, tid) else DeliverPause(w1, tid, expired)
  }

  function DeliverPause(w: World, tid: nat, expired: bool): World {
    if expired then DeliverEnd(w, tid) else Put(w, tid, DeliverSleep)
  }

  // ------------------------------------------------------------------ the system

  /** The parameters of a label are the choices the step leaves open. */
  datatype Label =
    | RuntimeMoves(input: Input<Payload>)
    | StartCountersign(req: CountersignRequest)
    | StartNotification(names: Option<Digest>)
    | StartFunding
    | StartRejection(kind: CommandType)
    | StartRefresh
    | Prune
    | Serve(tid: nat, card: Card, context: FundingContext)
    | Fail(tid: nat, final: bool, expired: bool)
    | Resume(tid: nat, v: Validation, active: bool, anchored: bool, domain: bool,
             token: nat, csv: Text, rest: Text, id: nat, expired: bool)

  /** The Runtime handles the outstanding request of a thread and its reply is on the way. */
  function ServeThread(w: World, tid: nat, t: Thread, card: Card, context: FundingContext): World {
    var st := Read(w);
    match t
    case CsStatus(req) => Put(w, tid, CsStatusReply(req, st))
    case CsCard(req, held) => Put(w, tid, CsCardReply(req, held, card))
    case CsSubmit =>
      var w1 := w.(rt := Step(w.rt, Countersigned).0);
      if w.rt.state == PROPOSED then Put(w1, tid, ObserveReply(Read(w1))) else End(w, tid)
    case NoteStatus => Put(w, tid, NoteStatusReply(st))
    case FundRead(accepted, terms) => Put(w, tid, FundReply(accepted, terms, context))
    case FundSubmit => Put(w, tid, ObserveReply(st))
    case RejectionStatus(kind, terms) => Put(w, tid, RejectionReply(kind, terms, st))
    case RejectionSubmit(command) =>
      var (rt, reply) := Step(w.rt, Submit(command));
      if reply.Applied? then Put(w.(rt := rt), tid, ObserveReply(Read(w.(rt := rt)))) else End(w, tid)
    case RefreshStatus => Put(w, tid, RefreshReply(st))
    case WatchStatus => Put(w, tid, WatchReply(st))
    case DeliverStatus(terms) => Put(w, tid, DeliverStatusReply(terms, st))
    case DeliverFunding(terms, held) => Put(w, tid, DeliverFunded(terms, held))
    case DeliverEvidence(held) => Put(w, tid, DeliverRegistered(held))
    case DeliverSubmit(command) =>
      var (rt, reply) := Step(w.rt, Submit(command));
      if reply.Applied? then Put(w.(rt := rt), tid, DeliverObserve(Read(w.(rt := rt))))
      else if reply.code == RevisionConflict then Put(w, tid, DeliverProbe)
      else DeliverEnd(w, tid)
    case DeliverProbe => Put(w, tid, DeliverProbeReply(st))
    case _ => w
  }

  /** A request or its reply is lost or refused; `final` is a rejection that retrying cannot cure. */
  function FailThread(w: World, tid: nat, t: Thread, final: bool, expired: bool): World {
    if t.IsWatcher() then (if t.WatchDecide? then w else Put(w, tid, WatchSleep))
    else if t.IsDelivery() then
      if t.DeliverProbe? || t.DeliverProbeReply? then DeliverPause(w, tid, expired)
      else if t.DeliverSleep? || t.DeliverMinted? then w
      else if final then DeliverEnd(w, tid)
      else Put(w, tid, DeliverProbe)
    else End(w, tid)
  }

  /** The segment after an await. */
  function ResumeThread(w: World, t: Thread, l: Label): World
    requires l.Resume?
  {
    match t
    case CsStatusReply(req, st) => CsCheck(w, l.tid, req, st)
    case CsCardReply(req, st, card) => CsAccept(w, l.tid, req, st, card, l.v)
    case NoteStatusReply(st) => NoteDone(w, l.tid, st, l.active)
    case FundReply(accepted, terms, context) => FundSign(w, l.tid, accepted, terms, context)
    case RejectionReply(kind, terms, st) => RejectionSign(w, l.tid, kind, terms, st, l.id)
    case RefreshReply(st) => RefreshDone(w, l.tid, st)
    case ObserveReply(st) => ObserveDone(w, l.tid, st)
    case WatchReply(st) => WatchDone(w, l.tid, st)
    case WatchDecide(state) => WatchNext(w, l.tid, state)
    case WatchSleep => Put(w, l.tid, WatchStatus)
    case DeliverStatusReply(terms, st) => DeliverCheck(w, l.tid, terms, st, l.anchored, l.domain)
    case DeliverFunded(terms, st) => DeliverPrepare(w, l.tid, st)
    case DeliverGenerating(oid, contract, st) => DeliverMint(w, l.tid, oid, contract, st, l.token, l.csv, l.rest)
    case DeliverMinted(st) => DeliverWatch(w, l.tid, st)
    case DeliverRegistered(st) => DeliverCommand(w, l.tid, st, l.id)
    case DeliverObserve(st) => DeliverDone(w, l.tid, st)
    case DeliverProbeReply(st) => DeliverProbed(w, l.tid, st, l.expired)
    case DeliverSleep => Put(Gated(w, l.active), l.tid, DeliverStart(w, l.active))
    case _ => w
  }

  /**
   What the Runtime does without this seller: anything but a command only the seller may sign, the buyer's
   submission of an acceptance included.
   */
  predicate OthersMay(i: Input<Payload>) { i.Submit? ==> Holder(i.command.kind) != Actor.Seller }

  function MoveRuntime(w: World, i: Input<Payload>): World {
    var rt := Step(w.rt, i).0;
    var decided := rt.state == RESOLVED && w.rt.state != RESOLVED && i.Submit?;
    w.(rt := rt, bps := if decided then Some(i.command.payload.bps) else w.bps)
  }

  /** One step of the system; a label that is not enabled leaves the world as it is. */
  function Next(w: World, l: Label): World {
    match l
    case RuntimeMoves(i) => if OthersMay(i) then MoveRuntime(w, i) else w
    case StartCountersign(req) =>
      Spawn(w.(given := w.given.(requests := w.given.requests + {req})), CsStatus(req))
    case StartNotification(names) =>
      if w.dealTerms.Some? && (names.Some? ==> names == w.dealTerms)
      then Spawn(w.(given := w.given.(notified := true)), NoteStatus)
      else w
    case StartFunding => FundStart(w)
    case StartRejection(kind) =>
      if w.dealTerms.Some? && kind in {Appealed, RefundConsented}
      then Spawn(w.(given := w.given.(asked := w.given.asked + {kind})), RejectionStatus(kind, w.dealTerms.value))
      else w
    case StartRefresh => Spawn(w, RefreshStatus)
    case Prune => if w.rec.Some? && Reclaimable(w.rec.value) then w.(rec := None) else w
    case Serve(tid, card, context) => if tid in w.threads then ServeThread(w, tid, w.threads[tid], card, context) else w
    case Fail(tid, final, expired) => if tid in w.threads then FailThread(w, tid, w.threads[tid], final, expired) else w
    case Resume(tid, _, _, _, _, _, _, _, _, _) => if tid in w.threads then ResumeThread(w, w.threads[tid], l) else w
  }

  function Run(w: World, labels: seq<Label>): World
    decreases |labels|
  {
    if labels == [] then w else Run(Next(w, labels[0]), labels[1..])
  }

  function Start(seller: Seller, dealId: Text, terms: Terms): World {
    World(seller, dealId, Genesis(), OfTerms(terms), None, None, None, false, false, map[], 0, 0, {}, [],
          Outcome(false, false), false, Given({}, {}, false, false, false))
  }
}
