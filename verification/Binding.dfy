/**
 Keeping the runtime key bound: an endless poll whose answers decide whether signing is open, with a
 registration that is filed at most once and never against a revocation.
 */
module Binding {
  import opened Sorting

  type Text = seq<int>

  datatype BindState = Disabled | NoKey | Pending | Active | Error

  /** What a lookup by key answers: an entry without a DID names the empty one. */
  datatype Lookup = NotFound | Entry(did: Text, runtimeId: Text) | LookupFailed

  /** Everything the outside contributes to one turn of the loop. */
  datatype Turn = Turn(lookup: Lookup, auto: bool, storageId: Option<Text>, view: Option<Text>)

  /** The status fields, the loop's two latches, and the turns at which a registration was attempted and returned. */
  datatype Poll = Poll(
    state: BindState, runtimeId: Text, agentStorageId: Text, registered: bool, everActive: bool, turns: nat,
    attempts: seq<nat>, successes: seq<nat>)

  function Start(): Poll { Poll(Pending, [], [], false, false, 0, [], []) }

  /** Resolve the agent id if it is still unknown, then file the request; either may fail and is retried next turn. */
  function Register(p: Poll, t: Turn): Poll {
    if p.agentStorageId == [] && (t.storageId.None? || t.storageId.value == []) then p.(state := Error)
    else
      var q := p.(agentStorageId := if p.agentStorageId == [] then t.storageId.value else p.agentStorageId,
        attempts := p.attempts + [p.turns]);
      if t.view.None? then q.(state := Error)
      else q.(state := Pending, registered := true, runtimeId := t.view.value, successes := p.successes + [p.turns])
  }

  function Next(did: Text, p: Poll, t: Turn): Poll {
    var q :=
      match t.lookup
      case LookupFailed => p.(state := Error)
      case Entry(d, runtimeId) =>
        if d != did then p.(state := Error) else p.(state := Active, everActive := true, runtimeId := runtimeId)
      case NotFound =>
        if p.everActive then p.(state := Error)
        else if !p.registered && t.auto then Register(p, t)
        else p.(state := Pending);
    q.(turns := p.turns + 1)
  }

  function Run(did: Text, turns: seq<Turn>): Poll {
    if turns == [] then Start() else Next(did, Run(did, turns[..|turns| - 1]), turns[|turns| - 1])
  }

  /** That turn's lookup named exactly this agent. */
  predicate NamesUs(did: Text, t: Turn) { t.lookup.Entry? && t.lookup.did == did }

  // ------------------------------------------------------------------ the loop

  class RuntimeBinding {
    const agentDid: Text
    var state: BindState
    var runtimeId: Text
    var agentStorageId: Text

    constructor (did: Text)
      ensures agentDid == did && state == Disabled && runtimeId == [] && agentStorageId == []
    {
      agentDid, state, runtimeId, agentStorageId := did, Disabled, [], [];
    }

    /** The live signing gate: signing is refused unless the binding is active. */
    predicate Blocked()
      reads this
    {
      state != Active
    }

    /** `start` with a configured identity and a key: the poll over any finite stretch of its turns. */
    method Maintain(turns: seq<Turn>) returns (ghost trace: Poll)
      requires state == Disabled && runtimeId == [] && agentStorageId == []
      modifies this
      ensures trace == Run(agentDid, turns)
      ensures state == trace.state && runtimeId == trace.runtimeId && agentStorageId == trace.agentStorageId
      ensures turns != [] ==> (!Blocked() <==> NamesUs(agentDid, turns[|turns| - 1]))
    {
      state := Pending;
      var registered, everActive := false, false;
      trace := Start();
      for i := 0 to |turns|
        invariant trace == Run(agentDid, turns[..i])
        invariant state == trace.state && runtimeId == trace.runtimeId && agentStorageId == trace.agentStorageId
        invariant registered == trace.registered && everActive == trace.everActive && trace.turns == i
        invariant i > 0 ==> (state == Active <==> NamesUs(agentDid, turns[i - 1]))
        invariant i == 0 ==> state == Pending
      {
        var t := turns[i];
        assert turns[..i + 1][..i] == turns[..i];
        trace := Next(agentDid, trace, t);
        match t.lookup
        case LookupFailed =>
          state := Error;
        case Entry(d, matched) =>
          if d != agentDid {
            state := Error;
          } else {
            runtimeId, everActive := matched, true;
            if state != Active { state := Active; }
          }
        case NotFound =>
          if everActive {
            if state != Error { state := Error; }
          } else if !registered && t.auto {
            var resolved := true;
            if agentStorageId == [] {
              if t.storageId.None? ||
                t.storageId.value == []
              {
                resolved := false; } else { agentStorageId := t.storageId.value;
              }
            }
            if !resolved || t.view.None? {
              state := Error;
            } else {
              registered, runtimeId, state := true, t.view.value, Pending;
            }
          } else {
            state := Pending;
          }
      }
      assert turns[..|turns|] == turns;
    }
  }

  // ------------------------------------------------------------------ over every sequence of answers

  /** What the latches mean, and where attempts and successes lie. */
  ghost predicate Sound(did: Text, turns: seq<Turn>) {
    var p := Run(did, turns);
    && p.turns == |turns| && |p.successes| <= 1 && (p.registered <==> |p.successes| == 1)
    && (p.everActive <==> exists i :: 0 <= i < |turns| && NamesUs(did, turns[i]))
    && (forall k :: 0 <= k < |p.successes| ==> p.successes[k] in p.attempts)
    && (forall k :: 0 <= k < |p.attempts| ==> p.attempts[k] < |turns| && turns[p.attempts[k]].lookup.NotFound?)
    && (forall k, i :: 0 <= k < |p.attempts| && 0 <= i < p.attempts[k] ==> !NamesUs(did, turns[i]))
    && (forall k, l :: 0 <= k < |p.attempts| && 0 <= l < |p.successes| ==> p.attempts[k] <= p.successes[l])
  }

  lemma {:induction false} AlwaysSound(did: Text, turns: seq<Turn>)
    ensures Sound(did, turns)
  {
    if turns != [] {
      var n := |turns| - 1;
      AlwaysSound(did, turns[..n]);
      SoundStep(did, turns);
    }
  }

  lemma SoundStep(did: Text, turns: seq<Turn>)
    requires turns != [] && Sound(did, turns[..|turns| - 1])
    ensures Sound(did, turns)
  {
    var n := |turns| - 1;
    var before := turns[..n];
    var p, r := Run(did, before), Run(did, turns);
    assert forall i :: 0 <= i < n ==> before[i] == turns[i];
    assert r.everActive <==> p.everActive || NamesUs(did, turns[n]);
    LatchStep(did, turns);
    hide NamesUs;
  }

  lemma LatchStep(did: Text, turns: seq<Turn>)
    requires turns != []
    ensures var n := |turns| - 1;
      (exists i :: 0 <= i < |turns| && NamesUs(did, turns[i])) <==>
      ((exists i :: 0 <= i < n && NamesUs(did, turns[..n][i])) || NamesUs(did, turns[n]))
  {
    hide NamesUs;
    var n := |turns| - 1;
    if exists i :: 0 <= i < |turns| && NamesUs(did, turns[i]) {
      var i :| 0 <= i < |turns| && NamesUs(did, turns[i]);
      if i < n { assert NamesUs(did, turns[..n][i]); }
    }
    if exists i :: 0 <= i < n && NamesUs(did, turns[..n][i]) {
      var i :| 0 <= i < n && NamesUs(did, turns[..n][i]);
      assert NamesUs(did, turns[i]);
    }
  }

  /** At most one registration ever returns success, and none is attempted after it or after any active turn. */
  lemma RegistersOnce(did: Text, turns: seq<Turn>)
    ensures var p := Run(did, turns);
      && |p.successes| <= 1
      && (forall k, l :: 0 <= k < |p.attempts| && 0 <= l < |p.successes| ==> p.attempts[k] <= p.successes[l])
      && (forall k, i :: 0 <= k < |p.attempts| && 0 <= i < |turns| && NamesUs(did, turns[i]) ==> p.attempts[k] < i)
  {
    AlwaysSound(did, turns);
    var p := Run(did, turns);
    forall k, i | 0 <= k < |p.attempts| && 0 <= i < |turns| && NamesUs(did, turns[i]) ensures p.attempts[k] < i {
      assert p.attempts[k] < |turns| && turns[p.attempts[k]].lookup.NotFound?;
    }
  }

  // ------------------------------------------------------------------ when a registration is filed, exactly

  /** No entry was found, registering is wanted, and no lookup had ever named this agent. */
  ghost predicate Vacant(did: Text, turns: seq<Turn>, k: nat) {
    k < |turns| && turns[k].lookup.NotFound? && turns[k].auto && forall i :: 0 <= i < k ==> !NamesUs(did, turns[i])
  }

  predicate NamesStorage(t: Turn) { t.storageId.Some? && t.storageId.value != [] }

  /** No registration had returned before turn `k`. */
  predicate Unregistered(p: Poll, k: nat) { forall j :: 0 <= j < |p.successes| ==> p.successes[j] >= k }

  /** A turn that wants the storage id and gets it. */
  ghost predicate Resolves(did: Text, turns: seq<Turn>, i: nat) {
    Vacant(did, turns, i) && NamesStorage(turns[i])
  }

  /** The storage id had been resolved by turn `k`. */
  ghost predicate Resolved(did: Text, turns: seq<Turn>, k: nat) {
    exists i: nat :: i <= k && Resolves(did, turns, i)
  }

  ghost predicate Files(did: Text, turns: seq<Turn>, k: nat) {
    Vacant(did, turns, k) && Unregistered(Run(did, turns), k) && Resolved(did, turns, k)
  }

  ghost predicate FilesExactly(did: Text, turns: seq<Turn>) {
    var p := Run(did, turns);
    && (forall k: nat :: k in p.attempts <==> Files(did, turns, k))
    && (forall k: nat :: k in p.successes <==> k in p.attempts && turns[k].view.Some?)
    && (forall k: nat :: k in p.attempts ==> k < |turns|)
    && (p.agentStorageId != [] <==> exists k: nat :: Resolves(did, turns, k) && Unregistered(p, k))
  }

  /**
   A registration is filed in exactly the turns that found no entry, want one, follow no lookup naming this agent and
   no registration that returned, once the storage id is resolved; and it returns exactly when the registry answers.
   */
  lemma {:induction false} RegistrationsExactly(did: Text, turns: seq<Turn>)
    ensures FilesExactly(did, turns)
  {
    if turns != [] {
      RegistrationsExactly(did, turns[..|turns| - 1]);
      FilesNext(did, turns);
    }
  }

  /** What held of earlier turns holds of them still. */
  lemma EarlierTurns(did: Text, turns: seq<Turn>, k: nat)
    requires turns != [] && k < |turns| - 1
    ensures var before := turns[..|turns| - 1];
      && (Vacant(did, before, k) <==> Vacant(did, turns, k)) && (Resolves(did, before, k) <==> Resolves(did, turns, k))
      && (Resolved(did, before, k) <==> Resolved(did, turns, k))
  {
    hide NamesUs, NamesStorage;
    var before := turns[..|turns| - 1];
    assert forall i :: 0 <= i < |before| ==> before[i] == turns[i];
    assert forall i: nat :: i <= k ==> (Vacant(did, before, i) <==> Vacant(did, turns, i));
    assert forall i: nat :: i <= k ==> (Resolves(did, before, i) <==> Resolves(did, turns, i));
  }

  /** The last turn files when it finds no entry, none was ever found, none is registered, and the id is there. */
  predicate Fires(p: Poll, t: Turn) {
    t.lookup.NotFound? && t.auto && !p.everActive && !p.registered && (p.agentStorageId != [] || NamesStorage(t))
  }

  lemma LastTurn(did: Text, p: Poll, t: Turn)
    ensures var r := Next(did, p, t);
      && r.attempts == p.attempts + (if Fires(p, t) then [p.turns] else [])
      && r.successes == p.successes + (if Fires(p, t) && t.view.Some? then [p.turns] else [])
      && (r.agentStorageId != [] <==>
            p.agentStorageId != [] ||
            (t.lookup.NotFound? && t.auto && !p.everActive && !p.registered && NamesStorage(t)))
  {
  }

  /** What the latches and the storage id say of the last turn. */
  lemma LastVacant(did: Text, turns: seq<Turn>)
    requires turns != [] && FilesExactly(did, turns[..|turns| - 1])
    ensures var n := |turns| - 1; var p, t := Run(did, turns[..n]), turns[n];
      && p.turns == n && (forall j :: 0 <= j < |p.successes| ==> p.successes[j] < n)
      && (Unregistered(p, n) <==> !p.registered)
      && (Vacant(did, turns, n) <==> t.lookup.NotFound? && t.auto && !p.everActive)
      && (!p.registered ==> (Resolved(did, turns, n) <==>
            p.agentStorageId != [] || (Vacant(did, turns, n) && NamesStorage(t))))
  {
    var n := |turns| - 1;
    var p := Run(did, turns[..n]);
    AlwaysSound(did, turns[..n]);
    hide Run, NamesUs, NamesStorage;
    assert forall i :: 0 <= i < n ==> turns[..n][i] == turns[i];
    forall k: nat | k < n ensures Resolves(did, turns[..n], k) <==> Resolves(did, turns, k) {
      EarlierTurns(did, turns, k);
    }
    if p.successes != [] {
      assert p.successes[0] in p.attempts;
      var m :| 0 <= m < |p.attempts| && p.attempts[m] == p.successes[0];
    } else {
      assert Unregistered(p, n) && forall k: nat :: Unregistered(p, k);
      assert Resolves(did, turns, n) <==> Vacant(did, turns, n) && NamesStorage(turns[n]);
      if Resolved(did, turns, n) {
        var i: nat :| i <= n && Resolves(did, turns, i);
        assert i < n ==> Resolves(did, turns[..n], i);
      }
      if p.agentStorageId != [] {
        var k: nat :| Resolves(did, turns[..n], k) && Unregistered(p, k);
        assert Resolves(did, turns, k);
      }
    }
  }

  /** A registration of the last turn unregisters nothing before it. */
  lemma StillUnregistered(p: Poll, r: Poll, n: nat, k: nat)
    requires r.successes == p.successes || r.successes == p.successes + [n]
    requires k <= n
    ensures Unregistered(r, k) <==> Unregistered(p, k)
  {
    if r.successes == p.successes + [n] && Unregistered(r, k) {
      forall j | 0 <= j < |p.successes| ensures p.successes[j] >= k { assert r.successes[j] == p.successes[j]; }
    }
  }

  lemma FilesAt(did: Text, turns: seq<Turn>, k: nat)
    requires turns != [] && FilesExactly(did, turns[..|turns| - 1])
    ensures var r := Run(did, turns);
      && (k in r.attempts <==> Files(did, turns, k)) && (k in r.attempts ==> k < |turns|)
      && (k in r.successes <==> k in r.attempts && turns[k].view.Some?)
  {
    var n := |turns| - 1;
    var p, r := Run(did, turns[..n]), Run(did, turns);
    LastTurn(did, p, turns[n]);
    LastVacant(did, turns);
    assert r == Next(did, p, turns[n]);
    AlwaysSound(did, turns[..n]);
    assert forall m: nat :: m in p.attempts ==> m < n;
    hide Run, Next, Vacant, Resolved, Resolves, NamesStorage, NamesUs, Sound, Unregistered;
    if k <= n { StillUnregistered(p, r, n, k); }
    if k < n {
      EarlierTurns(did, turns, k);
      assert turns[..n][k] == turns[k];
      assert Files(did, turns[..n], k) <==> Files(did, turns, k);
    }
  }

  lemma StorageNext(did: Text, turns: seq<Turn>)
    requires turns != [] && FilesExactly(did, turns[..|turns| - 1])
    ensures Run(did, turns).agentStorageId != [] <==>
      exists k: nat :: Resolves(did, turns, k) && Unregistered(Run(did, turns), k)
  {
    var n := |turns| - 1;
    var p, r := Run(did, turns[..n]), Run(did, turns);
    LastTurn(did, p, turns[n]);
    LastVacant(did, turns);
    assert r == Next(did, p, turns[n]);
    forall k: nat
      ensures k < n ==> (Resolves(did, turns[..n], k) <==> Resolves(did, turns, k))
      ensures k <= n ==> (Unregistered(r, k) <==> Unregistered(p, k))
      ensures (Resolves(did, turns[..n], k) ==> k < n) && (Resolves(did, turns, k) ==> k <= n)
    {
      if k < n { EarlierTurns(did, turns, k); }
      if k <= n { StillUnregistered(p, r, n, k); }
    }
    assert Resolves(did, turns, n) <==> Vacant(did, turns, n) && NamesStorage(turns[n]);
    hide Run, Next, Vacant, Resolved, Resolves, NamesStorage, NamesUs, Unregistered;
  }

  lemma FilesNext(did: Text, turns: seq<Turn>)
    requires turns != [] && FilesExactly(did, turns[..|turns| - 1])
    ensures FilesExactly(did, turns)
  {
    forall k: nat
      ensures k in Run(did, turns).attempts <==> Files(did, turns, k)
      ensures k in Run(did, turns).attempts ==> k < |turns|
      ensures k in Run(did, turns).successes <==> k in Run(did, turns).attempts && turns[k].view.Some?
    {
      FilesAt(did, turns, k);
    }
    StorageNext(did, turns);
    hide Run, Files, Resolves, Unregistered;
  }

  /**
   What each turn leaves as the status: active exactly when its lookup named this agent; pending exactly when no entry
   was found, none ever had been, and nothing was to be filed or the filing returned; an error otherwise. The runtime
   is the one last named or registered.
   */
  lemma StatusAfterTurn(did: Text, turns: seq<Turn>)
    requires turns != []
    ensures var n := |turns| - 1; var p, r, t := Run(did, turns[..n]), Run(did, turns), turns[n];
      && (r.state == Active <==> NamesUs(did, t))
      && (r.state == Pending <==>
            && t.lookup.NotFound? && (forall i :: 0 <= i < n ==> !NamesUs(did, turns[i]))
            && (!t.auto || !Unregistered(r, n) || n in r.successes))
      && r.state in {Active, Pending, Error}
      && (NamesUs(did, t) ==> r.runtimeId == t.lookup.runtimeId)
      && (n in r.successes ==> t.view == Some(r.runtimeId))
      && (!NamesUs(did, t) && n !in r.successes ==> r.runtimeId == p.runtimeId)
  {
    var n := |turns| - 1;
    var p, r := Run(did, turns[..n]), Run(did, turns);
    RegistrationsExactly(did, turns[..n]);
    AlwaysSound(did, turns[..n]);
    LastVacant(did, turns);
    LastTurn(did, p, turns[n]);
    StillUnregistered(p, r, n, n);
    assert forall i :: 0 <= i < n ==> turns[..n][i] == turns[i];
    assert n !in p.successes;
    hide FilesExactly, Resolved, Unregistered, Run;
  }
}
