/** What the live seller guarantees over whole runs, for every sequence of steps and every deal. */
module LiveTheorems {
  import opened Sorting
  import opened Extension
  import opened Agreement
  import opened Live
  import opened LiveSafety
  import opened LiveSteps
  import opened LiveLog
  import opened LiveHistory
  import Settlement

  lemma Reached(seller: Seller, dealId: Text, terms: Terms, labels: seq<Label>)
    ensures var start := Start(seller, dealId, terms);
      Inv(Live.Run(start, labels)) && Told(Live.Run(start, labels), Lost(start, labels))
  {
    var start := Start(seller, dealId, terms);
    StartInv(seller, dealId, terms);
    assert Told(start, false);
    ToldRun(start, false, labels);
  }

  // ------------------------------------------------------------------ what a run never takes back

  /** The deal stays the deal, and neither a refund nor a late countersign is ever forgotten. */
  predicate Onward(w: World, w': World) { SameDeal(w, w') && (w.outcome.refunded ==> w'.outcome.refunded) }

  lemma {:induction false} Fixed(w: World, labels: seq<Label>)
    requires Inv(w)
    ensures Onward(w, Live.Run(w, labels))
    decreases |labels|
  {
    if labels != [] {
      NextFramed(w, labels[0]);
      NextInv(w, labels[0]);
      hide Inv, Next, EffectOf, WatchFramed, ThreadsFramed, RuntimeFramed;
      Fixed(Next(w, labels[0]), labels[1..]);
    }
  }

  lemma {:induction false} RunTwice(w: World, a: seq<Label>, b: seq<Label>)
    ensures Live.Run(w, a + b) == Live.Run(Live.Run(w, a), b)
    decreases |a|
  {
    if a == [] {
      assert a + b == b;
    } else {
      assert (a + b)[1..] == a[1..] + b;
      RunTwice(Next(w, a[0]), a[1..], b);
    }
  }

  // ------------------------------------------------------------------ what is served

  ghost predicate NothingServed(w: World) { forall file, token :: ArtifactFor(w, file, token) == Nothing }

  /** The current token serves the committed manifest and the bytes it names, and no other token serves anything. */
  ghost predicate ServesCommitted(w: World)
    requires Committed(w) != []
  {
    && HasToken(w)
    && var token := w.rec.value.token.value;
    && ArtifactFor(w, ManifestJson, token).ManifestBytes?
    && var manifest := ArtifactFor(w, ManifestJson, token).manifest;
    && Committed(w)[0].payload.deliveryHash == Some(OfManifest(manifest))
    && manifest.locatorToken == token
    && ArtifactFor(w, DataCsv, token).CsvBytes?
    && manifest.contentHash == OfBytes(ArtifactFor(w, DataCsv, token).bytes)
    && forall file, other | other != token :: ArtifactFor(w, file, other) == Nothing
  }

  lemma ServedToken(w: World)
    requires Inv(w)
    ensures NothingServed(w) <==> !HasToken(w) || w.rec.value.revoked
  {
    hide ThreadsOk, Guarded, SignaturesOk, Consistent, Deliveries;
    if HasToken(w) && !w.rec.value.revoked {
      assert ArtifactFor(w, DataCsv, w.rec.value.token.value).CsvBytes?;
    }
  }

  /**
   At most one `delivered` commits. From then on, in every run without an applied refund, exactly the committed
   delivery is served, unless a record holding a token was reclaimed and none minted since; then nothing is.
   Only a late countersign makes such a record reclaimable.
   */
  lemma CommittedIsServed(seller: Seller, dealId: Text, terms: Terms, labels: seq<Label>)
    ensures var start := Start(seller, dealId, terms);
      var w, lost := Live.Run(start, labels), Lost(start, labels);
      && |Committed(w)| <= 1
      && (Committed(w) != [] ==> Committed(w)[0].payload.terms == OfTerms(terms))
      && (Committed(w) != [] && !w.outcome.refunded ==>
            && (ServesCommitted(w) <==> !lost)
            && (NothingServed(w) <==> lost))
      && (lost ==> w.stale)
  {
    var start := Start(seller, dealId, terms);
    var w := Live.Run(start, labels);
    Reached(seller, dealId, terms, labels);
    PathCounts(w.rt.chain, w.rt.state);
    StartInv(seller, dealId, terms);
    Fixed(start, labels);
    hide Live.Run, LostAfter, Start;
    ServedToken(w);
    if Committed(w) != [] && HasToken(w) && !w.outcome.refunded { HeldIsServed(w); }
  }

  /** A record that holds the committed hash, unrevoked, serves what was committed. */
  lemma HeldIsServed(w: World)
    requires Inv(w) && Committed(w) != [] && HasToken(w) && !w.outcome.refunded
    requires w.rec.value.deliveryHash == Committed(w)[0].payload.deliveryHash
    ensures ServesCommitted(w)
  {
    hide ThreadsOk, Guarded, SignaturesOk, Consistent, Deliveries;
  }

  /** Once a refund is applied, nothing is served under any token for the rest of the run, whatever still happens. */
  lemma RefundRevokesForGood(seller: Seller, dealId: Text, terms: Terms, before: seq<Label>, after: seq<Label>)
    requires Live.Run(Start(seller, dealId, terms), before).outcome.refunded
    ensures var w := Live.Run(Live.Run(Start(seller, dealId, terms), before), after);
      w.outcome.refunded && NothingServed(w)
  {
    var start := Start(seller, dealId, terms);
    RunTwice(start, before, after);
    Reached(seller, dealId, terms, before);
    Fixed(Live.Run(start, before), after);
    ServedIff(seller, dealId, terms, before + after);
  }

  /** What decides whether a file can be downloaded, in every run. */
  lemma ServedIff(seller: Seller, dealId: Text, terms: Terms, labels: seq<Label>)
    ensures var w := Live.Run(Start(seller, dealId, terms), labels);
      NothingServed(w) <==> !HasToken(w) || w.outcome.refunded
  {
    var w := Live.Run(Start(seller, dealId, terms), labels);
    Reached(seller, dealId, terms, labels);
    ServedToken(w);
    hide Live.Run, LostAfter, Start, TokenTold, WatchTold, OutcomeTold, ThreadsOk, Guarded, NothingServed;
  }

  // ------------------------------------------------------------------ who watches

  ghost predicate Watched(w: World) { exists i :: i in w.threads && w.threads[i].IsWatcher() }

  /**
   In every run a token that serves anything is watched, was watched to an outcome that keeps it, or stands at the
   step that starts its watcher.
   */
  lemma TokensAreWatched(seller: Seller, dealId: Text, terms: Terms, labels: seq<Label>)
    ensures var w := Live.Run(Start(seller, dealId, terms), labels);
      !NothingServed(w) ==> Watched(w) || w.outcome.kept || AtWatchPoint(w)
  {
    Reached(seller, dealId, terms, labels);
    ServedToken(Live.Run(Start(seller, dealId, terms), labels));
    hide Live.Run, LostAfter, Start, TokenTold, RefundTold, OutcomeTold, ThreadsOk, WorldOk, AtWatchPoint,
      NothingServed;
  }

  /** However notifications, retries and polls interleave, a deal has one delivery task and one watcher at most. */
  lemma OneTaskEach(seller: Seller, dealId: Text, terms: Terms, labels: seq<Label>, i: nat, j: nat)
    requires var w := Live.Run(Start(seller, dealId, terms), labels); i in w.threads && j in w.threads
    ensures var w := Live.Run(Start(seller, dealId, terms), labels);
      && (w.threads[i].IsDelivery() && w.threads[j].IsDelivery() ==> i == j)
      && (w.threads[i].IsWatcher() && w.threads[j].IsWatcher() ==> i == j)
  {
    Reached(seller, dealId, terms, labels);
  }

  // ------------------------------------------------------------------ from the Runtime's refund to the revocation

  /** Access is taken away only for a refund the Runtime stands by, and kept for good only without one. */
  lemma OutcomesAreTheRuntimes(seller: Seller, dealId: Text, terms: Terms, labels: seq<Label>)
    ensures var w := Live.Run(Start(seller, dealId, terms), labels);
      && (w.rec.Some? && w.rec.value.revoked ==> w.outcome.refunded)
      && (w.outcome.refunded ==> w.rt.state == CANCELLED || (w.rt.state == RESOLVED && w.bps == Some(0)))
      && (w.outcome.kept ==>
            w.rt.state in {ACCEPTED, DEFAULTED, EXPIRED} || (w.rt.state == RESOLVED && w.bps != Some(0)))
  {
    Reached(seller, dealId, terms, labels);
    hide Live.Run, Start, TokenTold, WatchTold, ThreadsOk, Guarded, SignaturesOk;
  }

  /**
   The agreement lets a seller consent to a refund before delivering; this one answers rejections only. So in every
   run the Runtime refunds nothing but a delivery it has committed.
   */
  lemma RefundsFollowDelivery(seller: Seller, dealId: Text, terms: Terms, labels: seq<Label>)
    ensures var w := Live.Run(Start(seller, dealId, terms), labels);
      w.rt.state == CANCELLED || (w.rt.state == RESOLVED && w.bps == Some(0)) ==> |Committed(w)| == 1
  {
    var w := Live.Run(Start(seller, dealId, terms), labels);
    Reached(seller, dealId, terms, labels);
    PathCounts(w.rt.chain, w.rt.state);
    hide Live.Run, Start, Told, ThreadsOk, Guarded, SignaturesOk, Deliveries, Path;
  }

  /** A refund the Runtime decided and nobody applied yet is pending: somebody watches the token, or is about to. */
  lemma RefundIsPending(seller: Seller, dealId: Text, terms: Terms, labels: seq<Label>)
    requires var w := Live.Run(Start(seller, dealId, terms), labels);
      && (w.rt.state == CANCELLED || (w.rt.state == RESOLVED && w.bps == Some(0)))
      && !w.outcome.refunded && HasToken(w)
    ensures var w := Live.Run(Start(seller, dealId, terms), labels); Watched(w) || AtWatchPoint(w)
  {
    TokensAreWatched(seller, dealId, terms, labels);
    OutcomesAreTheRuntimes(seller, dealId, terms, labels);
    ServedIff(seller, dealId, terms, labels);
    hide Live.Run, Start, Watched, AtWatchPoint, NothingServed;
  }

  /** The gap closes when a watcher, or an admin page, that has read the refund goes on: then nothing is served. */
  lemma RefreshCloses(seller: Seller, dealId: Text, terms: Terms, labels: seq<Label>, l: Label, st: Status)
    requires var w := Live.Run(Start(seller, dealId, terms), labels);
      && l.Resume? && l.tid in w.threads && w.threads[l.tid] in {WatchReply(st), RefreshReply(st)}
      && (st.state == CANCELLED || (st.state == RESOLVED && st.bps == Some(0)))
    ensures var w' := Next(Live.Run(Start(seller, dealId, terms), labels), l);
      NothingServed(w') && (w'.rec.Some? ==> w'.outcome.refunded)
  {
    var start := Start(seller, dealId, terms);
    var w := Live.Run(start, labels);
    RunTwice(start, labels, [l]);
    assert Live.Run(w, [l]) == Live.Run(Next(w, l), [l][1..]);
    ServedIff(seller, dealId, terms, labels + [l]);
    hide Live.Run, Start, Next, NothingServed;
    RefundApplied(w, l, st);
  }

  lemma RefundApplied(w: World, l: Label, st: Status)
    requires l.Resume? && l.tid in w.threads && w.threads[l.tid] in {WatchReply(st), RefreshReply(st)}
    requires st.state == CANCELLED || (st.state == RESOLVED && st.bps == Some(0))
    ensures Next(w, l).rec.Some? ==> Next(w, l).outcome.refunded
  {
    hide Terminal;
    assert Next(w, l) == if w.threads[l.tid].WatchReply? then WatchDone(w, l.tid, st) else RefreshDone(w, l.tid, st);
  }

  // ------------------------------------------------------------------ signatures

  /** Every signature is over terms that passed the countersigning checks for this deal before. */
  lemma SignaturesCommitToAcceptedTerms(seller: Seller, dealId: Text, terms: Terms, labels: seq<Label>)
    ensures var w := Live.Run(Start(seller, dealId, terms), labels);
      forall s :: s in w.signed ==>
        && (exists a :: a in w.passed && Passed(seller, dealId, a) && a.contract.terms == terms)
        && SignedTerms(s) == OfTerms(terms)
  {
    var w := Live.Run(Start(seller, dealId, terms), labels);
    Reached(seller, dealId, terms, labels);
    StartInv(seller, dealId, terms);
    Fixed(Start(seller, dealId, terms), labels);
    forall s | s in w.signed
      ensures (exists a :: a in w.passed && Passed(seller, dealId, a) && a.contract.terms == terms)
      ensures SignedTerms(s) == OfTerms(terms)
    {
      assert SignedOk(w, s);
      var a :| a in w.passed;
      assert TermsHashOf(a.contract) == w.terms && Passed(w.seller, w.dealId, a);
    }
  }

  function SignedTerms(s: Signed): Digest {
    match s
    case SignedAgreement(req, _, _, _) => TermsHashOf(req.contract)
    case SignedActivation(context, _) => context.activation.terms
    case SignedEvidence(terms, _, _) => terms
    case SignedDelivery(terms, _, _) => terms
    case SignedRejectionAnswer(_, terms, _) => terms
  }

  /**
   A co-signed Activation was read from a complete funding context with the buyer's wallet in it; it pays this
   seller's configured payout the contract's amount, and names this seller. The
   record it was checked against had been countersigned before exactly when that record was not merely proposed;
   then the Activation names a buyer whose signatures were verified.
   */
  lemma ActivationsAreAccepted(
      seller: Seller, dealId: Text, terms: Terms, labels: seq<Label>, k: nat, context: FundingContext, r: Record)
    requires var log := Live.Run(Start(seller, dealId, terms), labels).signed;
      k < |log| && log[k] == SignedActivation(context, r)
    ensures var w, a := Live.Run(Start(seller, dealId, terms), labels), context.activation;
      && context.buyerReady && context.hasDomain
      && a.terms == OfTerms(terms)
      && a.sellerPayout == terms.payout == seller.payout
      && a.sellerAgent == seller.address
      && Settlement.UsdcBaseUnits(terms.amount) == Some(a.amount)
      && (Agreed(w.signed[..k], r.oid) <==> r.state != PROPOSED_LOCAL)
      && (r.state != PROPOSED_LOCAL ==>
            exists x :: x in w.passed && Passed(seller, dealId, x) && x.contract.terms == terms &&
              x.buyer == a.buyerAgent)
  {
    var start := Start(seller, dealId, terms);
    var w := Live.Run(start, labels);
    Reached(seller, dealId, terms, labels);
    StartInv(seller, dealId, terms);
    Fixed(start, labels);
    LogRun(start, labels);
    assert Ordered(w.signed, k);
    assert SignedOk(w, w.signed[k]);
    hide Live.Run, Told, ThreadsOk, Guarded, Consistent, Agreed;
    var x :| x in w.passed;
    AcceptedContract(seller, dealId, x);
    if r.state != PROPOSED_LOCAL {
      var y :| y in w.passed && y.buyer == context.activation.buyerAgent;
      assert Passed(seller, dealId, y) && y.contract.terms == terms;
    }
  }

  /** The remembered terms are the recorded contract's, whenever both exist. */
  lemma RememberedTermsAgree(seller: Seller, dealId: Text, terms: Terms, labels: seq<Label>)
    ensures var w := Live.Run(Start(seller, dealId, terms), labels);
      w.dealTerms.Some? && w.rec.Some? ==> w.dealTerms.value == TermsHashOf(w.rec.value.contract)
  {
    Reached(seller, dealId, terms, labels);
  }

  // ------------------------------------------------------------------ many deals

  /** All deals of one seller: every step is a step of one deal. */
  type System = map<Text, World>

  function SystemRun(s: System, steps: seq<(Text, Label)>): System
    decreases |steps|
  {
    if steps == [] then s
    else
      var (d, l) := steps[0];
      SystemRun(if d in s then s[d := Next(s[d], l)] else s, steps[1..])
  }

  function StepsOf(d: Text, steps: seq<(Text, Label)>): seq<Label>
    decreases |steps|
  {
    if steps == [] then []
    else (if steps[0].0 == d then [steps[0].1] else []) + StepsOf(d, steps[1..])
  }

  /** In a run over many deals each deal sees a run of its own, so every claim above holds of each. */
  lemma {:induction false} EachDealRuns(s: System, steps: seq<(Text, Label)>, d: Text)
    requires d in s
    ensures d in SystemRun(s, steps) && SystemRun(s, steps)[d] == Live.Run(s[d], StepsOf(d, steps))
    decreases |steps|
  {
    if steps != [] {
      var (e, l) := steps[0];
      var s' := if e in s then s[e := Next(s[e], l)] else s;
      EachDealRuns(s', steps[1..], d);
      if e == d {
        RunTwice(s[d], [l], StepsOf(d, steps[1..]));
        assert Live.Run(s[d], [l]) == Live.Run(Next(s[d], l), [][..]);
      } else {
        assert StepsOf(d, steps) == StepsOf(d, steps[1..]);
      }
    }
  }
}
