/**
 The `fixed_outcome/v1` agreement: states, edges, actor binding, idempotency and revisions,
 and the chain of transition links a Runtime records. `P` is whatever a command's payload holds.
 */
module Agreement {
  import opened Sorting

  datatype State =
    | PROPOSED | COMMITTED | FULFILLING | DELIVERED | REJECTED | DISPUTED
    | ACCEPTED | RESOLVED | CANCELLED | DEFAULTED | EXPIRED

  datatype Actor = Buyer | Seller | Arbiter

  datatype CommandType = Delivered | Accepted | Rejected | Appealed | RefundConsented | ArbiterDecided

  datatype Event =
    | FundConfirmed | FundingExpired | DeliveryMissed | AutoConfirmed
    | AppealResponseExpired | ArbitrationExpired | SettlementObserved

  predicate Terminal(s: State) {
    s in {ACCEPTED, RESOLVED, CANCELLED, DEFAULTED, EXPIRED}
  }

  function Holder(c: CommandType): Actor {
    match c
    case Delivered | Appealed | RefundConsented => Seller
    case Accepted | Rejected => Buyer
    case ArbiterDecided => Arbiter
  }

  function CommandEdge(s: State, c: CommandType): Option<State> {
    match (s, c)
    case (FULFILLING, Delivered) => Some(DELIVERED)
    case (FULFILLING, RefundConsented) => Some(CANCELLED)
    case (DELIVERED, Accepted) => Some(ACCEPTED)
    case (DELIVERED, Rejected) => Some(REJECTED)
    case (DELIVERED, RefundConsented) => Some(CANCELLED)
    case (REJECTED, Appealed) => Some(DISPUTED)
    case (REJECTED, RefundConsented) => Some(CANCELLED)
    case (DISPUTED, ArbiterDecided) => Some(RESOLVED)
    case _ => None
  }

  function EventEdge(s: State, e: Event): Option<State> {
    match (s, e)
    case (COMMITTED, FundConfirmed) => Some(FULFILLING)
    case (COMMITTED, FundingExpired) => Some(EXPIRED)
    case (FULFILLING, DeliveryMissed) => Some(DEFAULTED)
    case (DELIVERED, AutoConfirmed) => Some(ACCEPTED)
    case (REJECTED, AppealResponseExpired) => Some(CANCELLED)
    case (DISPUTED, ArbitrationExpired) => Some(CANCELLED)
    case (_, SettlementObserved) => if Terminal(s) then Some(s) else None
    case _ => None
  }

  // ------------------------------------------------------------------ the machine

  datatype Command<P> = Command(id: nat, kind: CommandType, actor: Actor, expectedRevision: int, payload: P)

  datatype Driver<P> = ByAcceptance | ByCommand(command: Command<P>) | ByEvent(event: Event)

  datatype Link<P> = Link(from: State, to: State, driver: Driver<P>)

  datatype ErrorCode = IdempotencyConflict | UnauthorizedActor | RevisionConflict | IllegalTransition

  datatype Reply = Applied(state: State, revision: nat) | Refused(code: ErrorCode)

  /** `history` holds every applied command under its id, with the reply it was given. */
  datatype Machine<P> = Machine(
    state: State, revision: nat, chain: seq<Link<P>>, history: map<nat, (Command<P>, Reply)>)

  datatype Input<P> = Countersigned | Submit(command: Command<P>) | Observe(event: Event)

  function Genesis<P>(): Machine<P> { Machine(PROPOSED, 0, [], map[]) }

  function Commit<P>(m: Machine<P>, to: State, driver: Driver<P>): Machine<P> {
    m.(state := to, revision := m.revision + 1, chain := m.chain + [Link(m.state, to, driver)])
  }

  function Step<P(==)>(m: Machine<P>, i: Input<P>): (Machine<P>, Reply) {
    match i
    case Countersigned =>
      if m.state == PROPOSED then
        (Commit(m, COMMITTED, ByAcceptance), Applied(COMMITTED, m.revision + 1))
      else (m, Refused(IllegalTransition))
    case Observe(e) =>
      (match EventEdge(m.state, e)
       case Some(to) => (Commit(m, to, ByEvent(e)), Applied(to, m.revision + 1))
       case None => (m, Refused(IllegalTransition)))
    case Submit(c) =>
      if c.id in m.history then
        if m.history[c.id].0 == c then (m, m.history[c.id].1) else (m, Refused(IdempotencyConflict))
      else if c.actor != Holder(c.kind) then (m, Refused(UnauthorizedActor))
      else if c.expectedRevision != m.revision then (m, Refused(RevisionConflict))
      else
        match CommandEdge(m.state, c.kind)
        case None => (m, Refused(IllegalTransition))
        case Some(to) =>
          var reply := Applied(to, m.revision + 1);
          (Commit(m, to, ByCommand(c)).(history := m.history[c.id := (c, reply)]), reply)
  }

  function Run<P(==)>(m: Machine<P>, inputs: seq<Input<P>>): Machine<P>
    decreases |inputs|
  {
    if inputs == [] then m else Run(Step(m, inputs[0]).0, inputs[1..])
  }

  lemma {:induction false} RunConcat<P>(m: Machine<P>, a: seq<Input<P>>, b: seq<Input<P>>)
    ensures Run(m, a + b) == Run(Run(m, a), b)
    decreases |a|
  {
    if a == [] {
      assert a + b == b;
    } else {
      assert (a + b)[1..] == a[1..] + b;
      RunConcat(Step(m, a[0]).0, a[1..], b);
    }
  }

  // ------------------------------------------------------------------ replays and stale commands

  /** A command the machine already answered under this id, or one signed against an older revision. */
  predicate Noise<P>(m: Machine<P>, i: Input<P>) {
    i.Submit? && (i.command.id in m.history || i.command.expectedRevision != m.revision)
  }

  /** `noisy` is `clean` with any number of noise inputs inserted anywhere. */
  ghost predicate Padded<P>(m: Machine<P>, clean: seq<Input<P>>, noisy: seq<Input<P>>)
    decreases |noisy|
  {
    if noisy == [] then clean == []
    else
      || (Noise(m, noisy[0]) && Padded(m, clean, noisy[1..]))
      || (clean != [] && noisy[0] == clean[0] && Padded(Step(m, clean[0]).0, clean[1..], noisy[1..]))
  }

  /** Identical replays, divergent replays and stale commands never move state, revision or chain. */
  lemma {:induction false} NoiseIsInvisible<P>(m: Machine<P>, clean: seq<Input<P>>, noisy: seq<Input<P>>)
    requires Padded(m, clean, noisy)
    ensures Run(m, noisy) == Run(m, clean)
    decreases |noisy|
  {
    if noisy != [] {
      if Noise(m, noisy[0]) && Padded(m, clean, noisy[1..]) {
        NoiseIsInvisible(m, clean, noisy[1..]);
      } else {
        NoiseIsInvisible(Step(m, clean[0]).0, clean[1..], noisy[1..]);
      }
    }
  }

  lemma {:induction false} HistoryGrows<P>(m: Machine<P>, inputs: seq<Input<P>>, id: nat)
    requires id in m.history
    ensures id in Run(m, inputs).history && Run(m, inputs).history[id] == m.history[id]
    decreases |inputs|
  {
    if inputs != [] { HistoryGrows(Step(m, inputs[0]).0, inputs[1..], id); }
  }

  /**
   At-least-once delivery is exactly-once: redelivering an applied command at any later point of any
   run answers what it answered the first time and leaves the rest of the run exactly as it was.
   */
  lemma Redelivery<P>(m: Machine<P>, inputs: seq<Input<P>>, k: nat, j: nat)
    requires k < j <= |inputs| && inputs[k].Submit?
    requires inputs[k].command.id in Run(m, inputs[..k + 1]).history
    requires inputs[k].command.id !in Run(m, inputs[..k]).history
    ensures Step(Run(m, inputs[..j]), inputs[k]).1 == Step(Run(m, inputs[..k]), inputs[k]).1
    ensures Run(m, inputs[..j] + [inputs[k]] + inputs[j..]) == Run(m, inputs)
  {
    var before := Run(m, inputs[..k]);
    var mid := Run(m, inputs[..j]);
    assert inputs[..k + 1] == inputs[..k] + [inputs[k]];
    RunConcat(m, inputs[..k], [inputs[k]]);
    assert Run(m, inputs[..k + 1]) == Step(before, inputs[k]).0;
    assert inputs[..j] == inputs[..k + 1] + inputs[k + 1..j];
    RunConcat(m, inputs[..k + 1], inputs[k + 1..j]);
    HistoryGrows(Run(m, inputs[..k + 1]), inputs[k + 1..j], inputs[k].command.id);
    assert Step(mid, inputs[k]).0 == mid;
    RunConcat(m, inputs[..j] + [inputs[k]], inputs[j..]);
    RunConcat(m, inputs[..j], [inputs[k]]);
    RunConcat(m, inputs[..j], inputs[j..]);
    assert inputs == inputs[..j] + inputs[j..];
  }

  // ------------------------------------------------------------------ what every chain looks like

  predicate LegalLink<P>(l: Link<P>) {
    match l.driver
    case ByAcceptance => l.from == PROPOSED && l.to == COMMITTED
    case ByCommand(c) => c.actor == Holder(c.kind) && CommandEdge(l.from, c.kind) == Some(l.to)
    case ByEvent(e) => EventEdge(l.from, e) == Some(l.to)
  }

  /** A chain is a legal path from PROPOSED to `end`. */
  ghost predicate Path<P>(chain: seq<Link<P>>, end: State)
    decreases |chain|
  {
    if chain == [] then end == PROPOSED
    else
      var l := chain[|chain| - 1];
      l.to == end && LegalLink(l) && Path(chain[..|chain| - 1], l.from)
  }

  ghost predicate Consistent<P>(m: Machine<P>) {
    && Path(m.chain, m.state)
    && m.revision == |m.chain|
    && forall id :: id in m.history ==> m.history[id].0.id == id && m.history[id].1.Applied?
  }

  lemma StepConsistent<P>(m: Machine<P>, i: Input<P>)
    requires Consistent(m)
    ensures Consistent(Step(m, i).0)
    ensures m.chain <= Step(m, i).0.chain
  {
    var m' := Step(m, i).0;
    if |m'.chain| > |m.chain| {
      assert m'.chain[..|m'.chain| - 1] == m.chain;
    }
  }

  lemma {:induction false} RunConsistent<P>(m: Machine<P>, inputs: seq<Input<P>>)
    requires Consistent(m)
    ensures Consistent(Run(m, inputs))
    ensures m.chain <= Run(m, inputs).chain
    decreases |inputs|
  {
    if inputs != [] {
      StepConsistent(m, inputs[0]);
      RunConsistent(Step(m, inputs[0]).0, inputs[1..]);
    }
  }

  // ------------------------------------------------------------------ what is answered

  function DriverOf<P>(i: Input<P>): Driver<P> {
    match i
    case Countersigned => ByAcceptance
    case Submit(c) => ByCommand(c)
    case Observe(e) => ByEvent(e)
  }

  /** An application names the revision of a link that this very input drove, and the state it led to. */
  predicate True<P(==)>(chain: seq<Link<P>>, driver: Driver<P>, r: Reply) {
    r.Applied? ==>
      && 0 < r.revision <= |chain| && chain[r.revision - 1].driver == driver && chain[r.revision - 1].to == r.state
      && (driver.ByCommand? ==> driver.command.expectedRevision == r.revision - 1)
  }

  predicate Remembers<P(==)>(m: Machine<P>) {
    m.revision == |m.chain| && forall id :: id in m.history ==>
      m.history[id].0.id == id && True(m.chain, ByCommand(m.history[id].0), m.history[id].1)
  }

  lemma StepRemembers<P>(m: Machine<P>, i: Input<P>)
    requires Remembers(m)
    ensures Remembers(Step(m, i).0) && True(Step(m, i).0.chain, DriverOf(i), Step(m, i).1)
    ensures Step(m, i).1.Refused? ==> Step(m, i).0 == m
  {
    var m' := Step(m, i).0;
    assert m.chain <= m'.chain;
  }

  /**
   In every run a refusal changes nothing, and an application, replayed ones included, names the revision at which
   just this input moved the agreement and the state it moved it to.
   */
  lemma {:induction false} AnswersAreTrue<P>(m: Machine<P>, inputs: seq<Input<P>>, i: Input<P>)
    requires Remembers(m)
    ensures var n := Run(m, inputs); var (n', reply) := Step(n, i);
      True(n'.chain, DriverOf(i), reply) && (reply.Refused? ==> n' == n)
    decreases |inputs|
  {
    if inputs == [] {
      StepRemembers(m, i);
    } else {
      StepRemembers(m, inputs[0]);
      hide Step;
      AnswersAreTrue(Step(m, inputs[0]).0, inputs[1..], i);
    }
  }

  // ------------------------------------------------------------------ funding and delivery

  predicate IsFunding<P>(l: Link<P>) { l.driver == ByEvent(FundConfirmed) }

  predicate IsDelivery<P>(l: Link<P>) { l.driver.ByCommand? && l.driver.command.kind == Delivered }

  function Fundings<P>(chain: seq<Link<P>>): nat
    decreases |chain|
  {
    if chain == [] then 0
    else Fundings(chain[..|chain| - 1]) + (if IsFunding(chain[|chain| - 1]) then 1 else 0)
  }

  function Deliveries<P>(chain: seq<Link<P>>): seq<Command<P>>
    decreases |chain|
  {
    if chain == [] then []
    else
      var l := chain[|chain| - 1];
      Deliveries(chain[..|chain| - 1]) + (if IsDelivery(l) then [l.driver.command] else [])
  }

  predicate Funded(s: State) { s !in {PROPOSED, COMMITTED, EXPIRED} }

  predicate AfterDelivery(s: State) { s in {DELIVERED, REJECTED, DISPUTED, ACCEPTED, RESOLVED} }

  predicate BeforeDelivery(s: State) { s in {PROPOSED, COMMITTED, FULFILLING, DEFAULTED, EXPIRED} }

  /** The state alone says how often the agreement was funded and delivered; delivery implies funding. */
  lemma {:induction false} PathCounts<P>(chain: seq<Link<P>>, end: State)
    requires Path(chain, end)
    ensures Fundings(chain) == (if Funded(end) then 1 else 0)
    ensures |Deliveries(chain)| <= 1
    ensures AfterDelivery(end) ==> |Deliveries(chain)| == 1
    ensures BeforeDelivery(end) ==> Deliveries(chain) == []
    ensures forall c :: c in Deliveries(chain) ==> c.actor == Seller
    decreases |chain|
  {
    if chain != [] {
      var l := chain[|chain| - 1];
      PathCounts(chain[..|chain| - 1], l.from);
    }
  }

  /** A delivery link always sits behind a funding link. */
  lemma {:induction false} FundedBeforeDelivered<P>(chain: seq<Link<P>>, end: State, k: nat)
    requires Path(chain, end) && k < |chain| && IsDelivery(chain[k])
    ensures Fundings(chain[..k]) == 1 && Deliveries(chain[..k]) == []
    decreases |chain|
  {
    var l := chain[|chain| - 1];
    if k == |chain| - 1 {
      PathCounts(chain[..k], l.from);
    } else {
      FundedBeforeDelivered(chain[..|chain| - 1], l.from, k);
      assert chain[..|chain| - 1][..k] == chain[..k];
    }
  }

  /** Every run that ends with the seller paid was funded once and delivered once, by the seller. */
  lemma SettledRuns<P>(inputs: seq<Input<P>>)
    ensures var m := Run(Genesis<P>(), inputs);
      && |Deliveries(m.chain)| <= 1
      && (m.state in {ACCEPTED, RESOLVED} ==>
            Fundings(m.chain) == 1 && |Deliveries(m.chain)| == 1 && Deliveries(m.chain)[0].actor == Seller)
  {
    RunConsistent(Genesis<P>(), inputs);
    var m := Run(Genesis<P>(), inputs);
    PathCounts(m.chain, m.state);
  }

  /** Who can bring an agreement to this end: a party by its command, or a deadline. */
  predicate Ends<P>(end: State, d: Driver<P>) {
    match end
    case ACCEPTED =>
      (d.ByCommand? && d.command.kind == Accepted && d.command.actor == Buyer) || d == ByEvent(AutoConfirmed)
    case RESOLVED => d.ByCommand? && d.command.kind == ArbiterDecided && d.command.actor == Arbiter
    case CANCELLED =>
      || (d.ByCommand? && d.command.kind == RefundConsented && d.command.actor == Seller)
      || d == ByEvent(AppealResponseExpired) || d == ByEvent(ArbitrationExpired)
    case DEFAULTED => d == ByEvent(DeliveryMissed)
    case EXPIRED => d == ByEvent(FundingExpired)
    case _ => false
  }

  /**
   Every finished agreement was finished by someone entitled to that end: accepted by the buyer or by its silence,
   resolved by the arbiter, cancelled by the seller's consent or an unmet deadline after a rejection, defaulted by a
   missed delivery, expired unfunded.
   */
  lemma {:induction false} EndedBy<P>(chain: seq<Link<P>>, end: State)
    requires Path(chain, end) && Terminal(end)
    ensures exists i :: 0 <= i < |chain| && !Terminal(chain[i].from) && chain[i].to == end && Ends(end, chain[i].driver)
    decreases |chain|
  {
    var n := |chain| - 1;
    if Terminal(chain[n].from) {
      EndedBy(chain[..n], chain[n].from);
      var i :| 0 <= i < n && !Terminal(chain[..n][i].from) && chain[..n][i].to == end &&
        Ends(end, chain[..n][i].driver);
      assert chain[..n][i] == chain[i];
    } else {
      assert Ends(end, chain[n].driver);
    }
  }

  // ------------------------------------------------------------------ how long an agreement can run

  /** Moves an agreement has left. */
  function Rank(s: State): nat {
    match s
    case PROPOSED => 6
    case COMMITTED => 5
    case FULFILLING => 4
    case DELIVERED => 3
    case REJECTED => 2
    case DISPUTED => 1
    case _ => 0
  }

  function Moves<P>(chain: seq<Link<P>>): nat
    decreases |chain|
  {
    if chain == [] then 0
    else Moves(chain[..|chain| - 1]) + (if chain[|chain| - 1].from != chain[|chain| - 1].to then 1 else 0)
  }

  lemma StepMoves<P>(m: Machine<P>, i: Input<P>)
    ensures var m' := Step(m, i).0;
      && Moves(m'.chain) == Moves(m.chain) + (if m'.state != m.state then 1 else 0)
      && (m'.state != m.state ==> Rank(m'.state) < Rank(m.state))
  {
    var m' := Step(m, i).0;
    if m' != m {
      assert m'.chain == m.chain + [m'.chain[|m.chain|]];
      assert m'.chain[..|m'.chain| - 1] == m.chain;
    }
  }

  lemma {:induction false} RunMoves<P>(m: Machine<P>, inputs: seq<Input<P>>)
    ensures Moves(Run(m, inputs).chain) + Rank(Run(m, inputs).state) <= Moves(m.chain) + Rank(m.state)
    decreases |inputs|
  {
    if inputs != [] {
      StepMoves(m, inputs[0]);
      RunMoves(Step(m, inputs[0]).0, inputs[1..]);
    }
  }

  /** From COMMITTED at most five state changes ever happen, and a terminal state is never left. */
  lemma AtMostFiveMoves<P>(m: Machine<P>, inputs: seq<Input<P>>)
    ensures m.state == COMMITTED ==> Moves(Run(m, inputs).chain) <= Moves(m.chain) + 5
    ensures Terminal(m.state) ==> Run(m, inputs).state == m.state && Moves(Run(m, inputs).chain) == Moves(m.chain)
  {
    RunMoves(m, inputs);
    if Terminal(m.state) { TerminalStays(m, inputs); }
  }

  lemma {:induction false} TerminalStays<P>(m: Machine<P>, inputs: seq<Input<P>>)
    requires Terminal(m.state)
    ensures Run(m, inputs).state == m.state && Moves(Run(m, inputs).chain) == Moves(m.chain)
    decreases |inputs|
  {
    if inputs != [] {
      StepMoves(m, inputs[0]);
      TerminalStays(Step(m, inputs[0]).0, inputs[1..]);
    }
  }

  lemma {:induction false} RunTo<P>(m: Machine<P>, i: Input<P>, rest: seq<Input<P>>)
    ensures Run(m, [i] + rest) == Run(Step(m, i).0, rest)
  {
    assert ([i] + rest)[1..] == rest;
  }

  /** A fresh, current, authorised command on a legal edge is applied, one revision on. */
  lemma CommandMoves<P>(m: Machine<P>, c: Command<P>, to: State)
    requires c.id !in m.history && c.actor == Holder(c.kind) && c.expectedRevision == m.revision
    requires CommandEdge(m.state, c.kind) == Some(to)
    ensures var m' := Step(m, Submit(c)).0;
      && m'.state == to && m'.revision == m.revision + 1 && m'.history.Keys == m.history.Keys + {c.id}
      && Moves(m'.chain) == Moves(m.chain) + 1
  {
    StepMoves(m, Submit(c));
  }

  /** The bound of five is reached: fund, deliver, reject, appeal, decide. */
  lemma FiveMovesHappen<P>(m: Machine<P>, p: P, id: nat)
    requires m.state == COMMITTED && forall k :: k in m.history ==> k < id
    ensures exists inputs :: Moves(Run(m, inputs).chain) == Moves(m.chain) + 5
  {
    StepMoves(m, Observe(FundConfirmed));
    var m1 := Step(m, Observe(FundConfirmed)).0;
    var tail := FourMovesHappen(m1, p, id);
    RunTo(m, Observe(FundConfirmed), tail);
  }

  lemma FourMovesHappen<P>(m: Machine<P>, p: P, id: nat) returns (inputs: seq<Input<P>>)
    requires m.state == FULFILLING && forall k :: k in m.history ==> k < id
    ensures Moves(Run(m, inputs).chain) == Moves(m.chain) + 4
  {
    hide Step, Run, Moves;
    var c1 := Command(id, Delivered, Seller, m.revision, p);
    CommandMoves(m, c1, DELIVERED);
    var m2 := Step(m, Submit(c1)).0;
    var c2 := Command(id + 1, Rejected, Buyer, m2.revision, p);
    CommandMoves(m2, c2, REJECTED);
    var m3 := Step(m2, Submit(c2)).0;
    var tail := TwoMovesHappen(m3, p, id + 2);
    RunTo(m2, Submit(c2), tail);
    inputs := [Submit(c1)] + ([Submit(c2)] + tail);
    RunTo(m, Submit(c1), [Submit(c2)] + tail);
  }

  lemma TwoMovesHappen<P>(m: Machine<P>, p: P, id: nat) returns (inputs: seq<Input<P>>)
    requires m.state == REJECTED && forall k :: k in m.history ==> k < id
    ensures Moves(Run(m, inputs).chain) == Moves(m.chain) + 2
  {
    hide Step, Moves;
    var c1 := Command(id, Appealed, Seller, m.revision, p);
    CommandMoves(m, c1, DISPUTED);
    var m2 := Step(m, Submit(c1)).0;
    var c2 := Command(id + 1, ArbiterDecided, Arbiter, m2.revision, p);
    CommandMoves(m2, c2, RESOLVED);
    inputs := [Submit(c1)] + ([Submit(c2)] + []);
    RunTo(m2, Submit(c2), []);
    RunTo(m, Submit(c1), [Submit(c2)] + []);
  }
}
