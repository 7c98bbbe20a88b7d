/** The order of the seller's signatures: which record was countersigned before an Activation was signed. */
module LiveLog {
  import opened Sorting
  import opened Extension
  import opened Agreement
  import opened Live
  import opened LiveSafety
  import opened LiveSteps
  import Settlement

  /** The record object `oid` has been countersigned. */
  ghost predicate Agreed(log: seq<Signed>, oid: nat) {
    exists k :: 0 <= k < |log| && log[k].SignedAgreement? && log[k].oid == oid
  }

  // ------------------------------------------------------------------ what one step may do to the log

  /** The record is countersigned as before, is gone, or has just come. */
  predicate RecordStays(w: World, w': World) {
    w'.rec.Some? ==>
      if w.rec.Some?
      then
        && w'.rec.value.oid == w.rec.value.oid
        && (w'.rec.value.state == PROPOSED_LOCAL <==> w.rec.value.state == PROPOSED_LOCAL)
      else w'.rec.value.oid == w.nextOid < w'.nextOid && w'.rec.value.state == PROPOSED_LOCAL
  }

  /** A signature of this step: a countersignature advances the record it names, an Activation is checked against it. */
  predicate SignedNow(w: World, w': World, s: Signed) {
    match s
    case SignedAgreement(_, _, oid, _) =>
      w'.rec.Some? && w'.rec.value.oid == oid < w'.nextOid && w'.rec.value.state != PROPOSED_LOCAL
    case SignedActivation(_, r) => w.rec == Some(r) && w'.rec == w.rec
    case _ => RecordStays(w, w')
  }

  ghost predicate LogFramed(w: World, w': World) {
    && w.nextOid <= w'.nextOid
    && ((w'.signed == w.signed && RecordStays(w, w'))
        || exists s :: SignedNow(w, w', s) && w'.signed == w.signed + [s])
  }

  // ------------------------------------------------------------------ every segment

  /** Nothing is signed. */
  predicate Quiet(w: World, w': World) {
    w'.signed == w.signed && w.nextOid <= w'.nextOid && RecordStays(w, w')
  }

  lemma QuietFramed(w: World, w': World)
    requires Quiet(w, w')
    ensures LogFramed(w, w')
  {
  }

  lemma SignsFramed(w: World, w': World, s: Signed)
    requires SignedNow(w, w', s) && w.nextOid <= w'.nextOid && w'.signed == w.signed + [s]
    ensures LogFramed(w, w')
  {
  }

  lemma CsAcceptLog(w: World, tid: nat, req: CountersignRequest, st: Status, card: Card, v: Validation)
    requires w.rec.Some? ==> w.rec.value.oid < w.nextOid
    ensures LogFramed(w, CsAccept(w, tid, req, st, card, v))
  {
    var w1 := Registered(w, tid, req, st);
    RegisteredLog(w, tid, req, st);
    hide AcceptTerms, ValidateRuntimeCard, LogFramed, Registered, RecordStays, Countersign, Sign;
    var w' := CsAccept(w, tid, req, st, card, v);
    var chainId := ValidateRuntimeCard(card, req.contract.terms);
    QuietFramed(w, w1);
    EndLog(w, tid);
    if chainId.Some? {
      var buyer := w1.rec.value.buyer;
      var accepted := AcceptTerms(w.seller, w.dealId, req.contract, buyer, req.buyerAgreementSig, chainId.value, v);
      if accepted.Some? {
        AcceptedLog(w, w1, tid, accepted.value, Acceptance(req.contract, buyer, req.buyerAgreementSig, card, v),
          SignedAgreement(req, chainId.value, w1.rec.value.oid, st.revision));
      }
    }
  }

  lemma EndLog(w: World, tid: nat)
    ensures LogFramed(w, End(w, tid))
  {
  }

  lemma AcceptedLog(w: World, w1: World, tid: nat, accepted: Contract, a: Acceptance, s: Signed)
    requires Quiet(w, w1) && w1.rec.Some? && w1.rec.value.oid < w1.nextOid
    requires s.SignedAgreement? && s.oid == w1.rec.value.oid
    ensures var w2 := Sign(Countersign(w1, accepted, a), s);
      LogFramed(w, w2) && LogFramed(w, Put(w2, tid, CsSubmit))
  {
    hide LogFramed, Past;
    var w2 := Sign(Countersign(w1, accepted, a), s);
    SignsFramed(w, w2, s);
    SignsFramed(w, Put(w2, tid, CsSubmit), s);
  }

  lemma RegisteredLog(w: World, tid: nat, req: CountersignRequest, st: Status)
    requires w.rec.Some? ==> w.rec.value.oid < w.nextOid
    ensures var w1 := Registered(w, tid, req, st);
      Quiet(w, w1) && w1.rec.Some? && w1.rec.value.oid < w1.nextOid
  {
  }

  lemma FundSignLog(w: World, tid: nat, accepted: Contract, terms: Digest, context: FundingContext)
    ensures LogFramed(w, FundSign(w, tid, accepted, terms, context))
  {
    hide Settlement.UsdcBaseUnits, LogFramed;
    var w' := FundSign(w, tid, accepted, terms, context);
    if w'.signed != w.signed { SignsFramed(w, w', SignedActivation(context, w.rec.value)); }
    else { QuietFramed(w, w'); }
  }

  lemma RejectionSignLog(w: World, tid: nat, kind: CommandType, terms: Digest, st: Status, id: nat)
    ensures LogFramed(w, RejectionSign(w, tid, kind, terms, st, id))
  {
    hide LogFramed;
    var w' := RejectionSign(w, tid, kind, terms, st, id);
    if w.rec.Some? && st.state == REJECTED { SignsFramed(w, w', SignedRejectionAnswer(kind, terms, st.revision)); }
    else { QuietFramed(w, w'); }
  }

  /** Only an accepted record is ever delivered. */
  lemma DeliverMintLog(w: World, tid: nat, oid: nat, contract: Contract, st: Status, token: nat, csv: Text, rest: Text)
    requires w.rec.Some? && w.rec.value.oid == oid ==> w.rec.value.state != PROPOSED_LOCAL
    ensures LogFramed(w, DeliverMint(w, tid, oid, contract, st, token, csv, rest))
  {
    hide LogFramed;
    var w' := DeliverMint(w, tid, oid, contract, st, token, csv, rest);
    if w.rec.Some? {
      var manifest := OfManifest(Manifest(OfBytes(csv), token, rest));
      var signed := if w.rec.value.oid == oid then w.rec.value.contract else contract;
      SignsFramed(w, w', SignedEvidence(TermsHashOf(signed), manifest, st.revision));
    } else {
      QuietFramed(w, w');
    }
  }

  lemma DeliverCommandLog(w: World, tid: nat, st: Status, id: nat)
    ensures LogFramed(w, DeliverCommand(w, tid, st, id))
  {
    hide LogFramed;
    var w' := DeliverCommand(w, tid, st, id);
    if w.rec.Some? && w.rec.value.deliveryHash.Some? {
      var r := w.rec.value;
      SignsFramed(w, w', SignedDelivery(TermsHashOf(r.contract), r.deliveryHash.value, st.revision));
    } else {
      QuietFramed(w, w');
    }
  }

  lemma QuietObserved(w: World, tid: nat, st: Status)
    ensures Quiet(w, ObserveDone(w, tid, st)) && Quiet(w, DeliverDone(w, tid, st))
  {
  }

  lemma QuietRefreshed(w: World, tid: nat, st: Status)
    ensures Quiet(w, RefreshDone(w, tid, st)) && Quiet(w, WatchDone(w, tid, st))
  {
    hide Refreshed;
    if w.rec.Some? { QuietApplied(w, st); QuietApplied(End(w, tid), st); }
  }

  lemma QuietApplied(w: World, st: Status)
    requires w.rec.Some?
    ensures Quiet(w, Refreshed(w, st)) && Refreshed(w, st).rec.Some?
  {
    hide Refund, Terminal;
  }

  lemma QuietCheck(w: World, tid: nat, req: CountersignRequest, st: Status)
    ensures Quiet(w, CsCheck(w, tid, req, st))
  {
  }

  lemma QuietNote(w: World, tid: nat, st: Status, active: bool)
    ensures Quiet(w, NoteDone(w, tid, st, active))
  {
    hide DeliverStart;
  }

  lemma QuietWatch(w: World, tid: nat, st: Status, state: State)
    ensures Quiet(w, WatchNext(w, tid, state)) && Quiet(w, DeliverWatch(w, tid, st))
  {
    hide Terminal;
  }

  lemma QuietPrepare(w: World, tid: nat, st: Status)
    ensures Quiet(w, DeliverPrepare(w, tid, st))
  {
  }

  lemma QuietAnchored(w: World, tid: nat, terms: Digest, st: Status, anchored: bool, domain: bool)
    ensures Quiet(w, DeliverCheck(w, tid, terms, st, anchored, domain))
  {
    hide DeliverPrepare;
    if w.rec.Some? {
      var w1 := Observed(w, st);
      QuietPrepare(w1.(given := w1.given.(anchors := true)), tid, st);
    }
  }

  lemma QuietProbe(w: World, tid: nat, st: Status, expired: bool)
    ensures Quiet(w, DeliverProbed(w, tid, st, expired))
  {
  }

  /** Every other segment. */
  lemma QuietLog(w: World, l: Label)
    requires l.Resume? && l.tid in w.threads
    requires var t := w.threads[l.tid];
      !t.CsCardReply? && !t.FundReply? && !t.RejectionReply? && !t.DeliverGenerating? && !t.DeliverRegistered?
    ensures Quiet(w, ResumeThread(w, w.threads[l.tid], l))
  {
    hide CsCheck, NoteDone, ObserveDone, RefreshDone, WatchDone, WatchNext;
    hide DeliverCheck, DeliverPrepare, DeliverWatch, DeliverDone, DeliverProbed, DeliverStart;
    var tid := l.tid;
    match w.threads[tid]
    case CsStatusReply(req, st) => QuietCheck(w, tid, req, st);
    case NoteStatusReply(st) => QuietNote(w, tid, st, l.active);
    case DeliverMinted(st) => QuietWatch(w, tid, st, st.state);
    case WatchDecide(state) => QuietWatch(w, tid, Read(w), state);
    case ObserveReply(st) => QuietObserved(w, tid, st);
    case RefreshReply(st) => QuietRefreshed(w, tid, st);
    case WatchReply(st) => QuietRefreshed(w, tid, st);
    case DeliverStatusReply(terms, st) => QuietAnchored(w, tid, terms, st, l.anchored, l.domain);
    case DeliverFunded(_, st) => QuietPrepare(w, tid, st);
    case DeliverObserve(st) => QuietObserved(w, tid, st);
    case DeliverProbeReply(st) => QuietProbe(w, tid, st, l.expired);
    case _ =>
  }

  lemma ResumeLog(w: World, l: Label)
    requires Inv(w) && l.Resume? && l.tid in w.threads
    ensures LogFramed(w, ResumeThread(w, w.threads[l.tid], l))
  {
    ThreadFact(w, l.tid);
    hide Inv, LogFramed, CsAccept, FundSign, RejectionSign, DeliverMint, DeliverCommand;
    hide CsCheck, NoteDone, ObserveDone, RefreshDone, WatchDone, WatchNext;
    hide DeliverCheck, DeliverPrepare, DeliverWatch, DeliverDone, DeliverProbed, DeliverStart;
    match w.threads[l.tid]
    case CsCardReply(req, st, card) => RecordNumber(w); CsAcceptLog(w, l.tid, req, st, card, l.v);
    case FundReply(accepted, terms, context) => FundSignLog(w, l.tid, accepted, terms, context);
    case RejectionReply(kind, terms, st) => RejectionSignLog(w, l.tid, kind, terms, st, l.id);
    case DeliverGenerating(oid, contract, st) => DeliverMintLog(w, l.tid, oid, contract, st, l.token, l.csv, l.rest);
    case DeliverRegistered(st) => DeliverCommandLog(w, l.tid, st, l.id);
    case _ => QuietLog(w, l); QuietFramed(w, ResumeThread(w, w.threads[l.tid], l));
  }

  lemma RecordNumber(w: World)
    requires Inv(w)
    ensures w.rec.Some? ==> w.rec.value.oid < w.nextOid
  {
    hide ThreadsOk, Guarded, SignaturesOk, Consistent, Deliveries;
  }

  lemma ServeLog(w: World, tid: nat, card: Card, context: FundingContext)
    requires tid in w.threads
    ensures Quiet(w, ServeThread(w, tid, w.threads[tid], card, context))
  {
    hide Quiet;
    if w.threads[tid].IsDelivery() { ServeDeliveryLog(w, tid, card, context); }
    else { ServeOtherLog(w, tid, card, context); }
  }

  lemma ServeDeliveryLog(w: World, tid: nat, card: Card, context: FundingContext)
    requires tid in w.threads && w.threads[tid].IsDelivery()
    ensures Quiet(w, ServeThread(w, tid, w.threads[tid], card, context))
  {
    hide Step, Read;
  }

  lemma ServeOtherLog(w: World, tid: nat, card: Card, context: FundingContext)
    requires tid in w.threads && !w.threads[tid].IsDelivery()
    ensures Quiet(w, ServeThread(w, tid, w.threads[tid], card, context))
  {
    hide Step, Read;
  }

  lemma FailLog(w: World, tid: nat, final: bool, expired: bool)
    requires tid in w.threads
    ensures Quiet(w, FailThread(w, tid, w.threads[tid], final, expired))
  {
  }

  lemma OutsideLog(w: World, l: Label)
    requires !l.Resume?
    ensures Quiet(w, Next(w, l))
  {
    hide Step, ServeThread, FailThread, Reclaimable, OthersMay, FundStart;
    match l
    case Serve(tid, card, context) => if tid in w.threads { ServeLog(w, tid, card, context); }
    case Fail(tid, final, expired) => if tid in w.threads { FailLog(w, tid, final, expired); }
    case StartFunding => FundLog(w);
    case _ =>
  }

  lemma FundLog(w: World)
    ensures Quiet(w, FundStart(w))
  {
  }

  lemma NextLog(w: World, l: Label)
    requires Inv(w)
    ensures LogFramed(w, Next(w, l))
  {
    hide Inv, LogFramed, ResumeThread;
    if l.Resume? && l.tid in w.threads { ResumeLog(w, l); }
    else if l.Resume? { SameLog(w); }
    else { OutsideLog(w, l); QuietFramed(w, Next(w, l)); }
  }

  lemma SameLog(w: World)
    ensures LogFramed(w, w)
  {
  }

  // ------------------------------------------------------------------ what the log tells

  /** An Activation was signed against a countersigned record exactly when that record was not merely proposed. */
  ghost predicate Ordered(log: seq<Signed>, k: nat)
    requires k < |log|
  {
    log[k].SignedActivation? ==> (Agreed(log[..k], log[k].record.oid) <==> log[k].record.state != PROPOSED_LOCAL)
  }

  ghost predicate LogTold(w: World) {
    && (forall k :: 0 <= k < |w.signed| && w.signed[k].SignedAgreement? ==> w.signed[k].oid < w.nextOid)
    && (w.rec.Some? ==> (Agreed(w.signed, w.rec.value.oid) <==> w.rec.value.state != PROPOSED_LOCAL))
    && (forall k :: 0 <= k < |w.signed| ==> Ordered(w.signed, k))
  }

  lemma AgreedSnoc(log: seq<Signed>, s: Signed, oid: nat)
    ensures Agreed(log + [s], oid) <==> Agreed(log, oid) || (s.SignedAgreement? && s.oid == oid)
  {
    if Agreed(log, oid) {
      var k :| 0 <= k < |log| && log[k].SignedAgreement? && log[k].oid == oid;
      assert (log + [s])[k] == log[k];
    }
    if s.SignedAgreement? && s.oid == oid { assert (log + [s])[|log|] == s; }
  }

  lemma ToldLog(w: World, w': World)
    requires LogFramed(w, w') && LogTold(w)
    ensures LogTold(w')
  {
    if w'.signed != w.signed || !RecordStays(w, w') {
      var s :| SignedNow(w, w', s) && w'.signed == w.signed + [s];
      if w'.rec.Some? { AgreedSnoc(w.signed, s, w'.rec.value.oid); }
      forall k | 0 <= k < |w'.signed| ensures Ordered(w'.signed, k) {
        if k < |w.signed| {
          assert Ordered(w.signed, k) && w'.signed[k] == w.signed[k];
          assert w'.signed[..k] == w.signed[..k];
        } else {
          assert w'.signed[..k] == w.signed;
        }
      }
    }
  }

  /** In every run the log tells, of every Activation, whether its record had been countersigned. */
  lemma {:induction false} LogRun(w: World, labels: seq<Label>)
    requires Inv(w) && LogTold(w)
    ensures LogTold(Live.Run(w, labels))
    decreases |labels|
  {
    if labels != [] {
      NextLog(w, labels[0]);
      NextInv(w, labels[0]);
      hide Inv, Next, LogFramed, LogTold;
      ToldLog(w, Next(w, labels[0]));
      LogRun(Next(w, labels[0]), labels[1..]);
    }
  }
}
