/** What an accepted capture says of its links one by one, and which records of an agreement are accepted. */
module ProofRuns {
  import opened Sorting
  import opened Decimal
  import opened ProofChain
  import Agreement
  import Settlement

  // ------------------------------------------------------------------ what is hashed, in order

  /** The metadata pairs from position 13 on, by strictly ascending key. */
  ghost predicate MetadataInOrder(m: map<Bytes, Bytes>, fs: seq<Bytes>) {
    && |fs| >= 13 + 2 * |m|
    && (forall i :: 0 <= i < |m| ==> fs[13 + 2 * i] in m && fs[14 + 2 * i] == m[fs[13 + 2 * i]])
    && (forall i, j :: 0 <= i < j < |m| ==>
          fs[13 + 2 * i] != fs[13 + 2 * j] && LexLe(fs[13 + 2 * i], fs[13 + 2 * j]))
  }

  /**
   Whoever reads a hashed preimage finds twelve members in their frozen order, the count of the metadata and its pairs
   by ascending key, the count of the references and these, and the time.
   */
  lemma HashedInOrder(p: Link)
    ensures ReadFields(Preimage(p)).Some?
    ensures var fs, m, n := ReadFields(Preimage(p)).value, |Metadata(p)|, |Refs(p)|;
      && |fs| == 15 + 2 * m + n
      && fs[..12] == [p.agreementId, Print(p.sequence), Or(p.fromState), p.toState, p.event, Or(p.previousStateHash),
                      Or(p.nextStateHash), Or(p.previousProofHash), Or(p.actorId), Or(p.authorityRef),
                      Or(p.commandId), Or(p.commandHash)]
      && fs[12] == Print(m) && MetadataInOrder(Metadata(p), fs)
      && fs[13 + 2 * m] == Print(n) && fs[14 + 2 * m..14 + 2 * m + n] == Refs(p) && fs[14 + 2 * m + n] == p.createdAt
  {
    FieldsAre(p);
    var fs, meta := AllFields(p), Metadata(p);
    PairsInOrder(meta);
    hide *;
    var pairs := Pairs(meta, SortedKeys(meta.Keys));
    Layout(Head(p), [Print(|meta|)], pairs, [Print(|Refs(p)|)], Refs(p), [p.createdAt]);
    PairsPlaced(meta, fs);
  }

  lemma FieldsAre(p: Link)
    ensures ReadFields(Preimage(p)) == Some(AllFields(p))
    ensures var m := Metadata(p);
      AllFields(p) == Head(p) + ([Print(|m|)] + (Pairs(m, SortedKeys(m.Keys)) + ([Print(|Refs(p)|)] + (Refs(p)
        + [p.createdAt]))))
    ensures Head(p) == [
      p.agreementId, Print(p.sequence), Or(p.fromState), p.toState, p.event, Or(p.previousStateHash),
      Or(p.nextStateHash), Or(p.previousProofHash), Or(p.actorId), Or(p.authorityRef), Or(p.commandId),
      Or(p.commandHash)]
  {
    ReadsFields(AllFields(p));
    var m := Metadata(p);
    assert |SortedKeys(m.Keys)| == |m| by { assert |m.Keys| == |m|; }
    hide SortedKeys, Fields, ReadFields, Pairs, Print, Metadata;
  }

  lemma PairsPlaced(m: map<Bytes, Bytes>, fs: seq<Bytes>)
    requires |fs| >= 13 + 2 * |m| && fs[13..13 + 2 * |m|] == Pairs(m, SortedKeys(m.Keys))
    ensures MetadataInOrder(m, fs)
  {
    PairsInOrder(m);
    var pairs := Pairs(m, SortedKeys(m.Keys));
    hide Pairs, SortedKeys, LexLe;
    forall i | 0 <= i < |m| ensures fs[13 + 2 * i] == pairs[2 * i] && fs[14 + 2 * i] == pairs[2 * i + 1] {
      assert fs[13..13 + 2 * |m|][2 * i] == pairs[2 * i] && fs[13..13 + 2 * |m|][2 * i + 1] == pairs[2 * i + 1];
    }
  }

  lemma Layout<T>(a: seq<T>, b: seq<T>, c: seq<T>, d: seq<T>, e: seq<T>, f: seq<T>)
    requires |b| == |d| == |f| == 1
    ensures var s := a + (b + (c + (d + (e + f))));
      && |s| == |a| + |c| + |e| + 3 && s[..|a|] == a && s[|a|] == b[0]
      && s[|a| + 1..|a| + 1 + |c|] == c && s[|a| + 1 + |c|] == d[0]
      && s[|a| + 2 + |c|..|a| + 2 + |c| + |e|] == e && s[|a| + 2 + |c| + |e|] == f[0]
  {
  }

  lemma PairsInOrder(m: map<Bytes, Bytes>)
    ensures var pairs := Pairs(m, SortedKeys(m.Keys));
      && |pairs| == 2 * |m|
      && (forall i :: 0 <= i < |m| ==> pairs[2 * i] in m && pairs[2 * i + 1] == m[pairs[2 * i]])
      && (forall i, j :: 0 <= i < j < |m| ==>
            pairs[2 * i] != pairs[2 * j] && LexLe(pairs[2 * i], pairs[2 * j]))
  {
    var keys := SortedKeys(m.Keys);
    SortedKeysSorted(m.Keys);
    KeysOnce(m.Keys);
    hide SortedKeys, Pairs, LexLe;
    assert |m.Keys| == |m|;
    forall i | 0 <= i < |keys| ensures Pairs(m, keys)[2 * i] == keys[i] && Pairs(m, keys)[2 * i + 1] == m[keys[i]] {
      PairAt(m, keys, i);
    }
  }

  lemma KeysOnce(ks: set<Bytes>)
    ensures Distinct(SortedKeys(ks))
  {
    SortedKeysOnce(ks);
    forall i, j | 0 <= i < j < |SortedKeys(ks)| ensures SortedKeys(ks)[i] != SortedKeys(ks)[j] {
      Twice(SortedKeys(ks), i, j);
    }
  }

  // ------------------------------------------------------------------ acceptance, link by link

  /** A link that is sound by itself: its members, its hash, the hashes of the two states it names, its signature. */
  ghost predicate Sound(p: Link, sha: Hasher, verifies: Verifier) {
    && p.sequence >= 1 && (p.commandId.Some? <==> p.commandHash.Some?)
    && p.proofHash == sha(Preimage(p))
    && (p.previousStateHash.Some? ==>
          && p.fromState.Some? && p.fromState.value != []
          && p.previousStateHash.value == sha(Fields([p.agreementId, p.fromState.value, Print(p.sequence - 1)])))
    && (p.nextStateHash.Some? ==>
          p.nextStateHash.value == sha(Fields([p.agreementId, p.toState, Print(p.sequence)])))
    && p.signature.Some? && p.signature.value != [] && p.signedBy.Some? && p.signedBy.value != []
    && verifies(p.signature.value, Settlement.Chars("kite:fulfill:transition-proof:v1") + p.proofHash, p.signedBy.value)
  }

  /** `q` takes up where `p` left off: its state and its hash. */
  predicate Follows(p: Link, q: Link) {
    q.fromState == Some(p.toState) && q.previousProofHash == Some(p.proofHash)
  }

  ghost predicate Holds(links: seq<Link>, n: nat) { exists p :: p in links && p.sequence == n }

  /** The links of one agreement, numbered from one without a gap, each sound and each following the one before. */
  ghost predicate OneHistory(links: seq<Link>, sha: Hasher, verifies: Verifier) {
    && links != []
    && (forall p :: p in links ==> Sound(p, sha, verifies))
    && (forall n :: 1 <= n <= |links| ==> Holds(links, n))
    && (forall p, q :: p in links && q in links ==> p.agreementId == q.agreementId)
    && (forall p :: p in links && p.sequence == 1 ==> p.previousProofHash.None?)
    && (forall p, q :: p in links && q in links && q.sequence == p.sequence + 1 ==> Follows(p, q))
  }

  /** Each check of a capture is a check of its links. */
  lemma SoundIff(p: Link, sha: Hasher, verifies: Verifier)
    ensures Sound(p, sha, verifies) <==> SchemaOk(p) && HashesSound(p, sha) && SignedLink(p, verifies)
  {
    assert PROOF_TAG == Settlement.Chars("kite:fulfill:transition-proof:v1");
    hide Preimage, Fields, Settlement.Chars, PROOF_TAG;
  }

  ghost predicate HashesSound(p: Link, sha: Hasher) {
    && p.proofHash == sha(Preimage(p))
    && (p.previousStateHash.Some? ==>
          && Or(p.fromState) != [] && p.sequence >= 1
          && p.previousStateHash.value == StateHash(sha, p.agreementId, Or(p.fromState), p.sequence - 1))
    && (p.nextStateHash.Some? ==> p.nextStateHash.value == StateHash(sha, p.agreementId, p.toState, p.sequence))
  }

  lemma HashesEach(o: seq<Link>, sha: Hasher)
    ensures ProofHashesHold(o, sha) && StateHashesHold(o, sha) <==> forall p :: p in o ==> HashesSound(p, sha)
  {
    hide Preimage, StateHash, Or;
    if forall p :: p in o ==> HashesSound(p, sha) {
      forall i | 0 <= i < |o| ensures HashesSound(o[i], sha) { assert o[i] in o; }
    }
  }

  lemma SignedEach(o: seq<Link>, verifies: Verifier)
    ensures Signed(o, verifies) <==> forall p :: p in o ==> SignedLink(p, verifies)
  {
    hide Or, PROOF_TAG;
    if forall p :: p in o ==> SignedLink(p, verifies) {
      forall i | 0 <= i < |o| ensures SignedLink(o[i], verifies) { assert o[i] in o; }
    }
  }

  lemma EachSound(o: seq<Link>, sha: Hasher, verifies: Verifier)
    ensures (forall p :: p in o ==> Sound(p, sha, verifies)) <==>
      && (forall p :: p in o ==> SchemaOk(p))
      && ProofHashesHold(o, sha) && StateHashesHold(o, sha) && Signed(o, verifies)
  {
    forall p | p in o
      ensures Sound(p, sha, verifies) <==> SchemaOk(p) && HashesSound(p, sha) && SignedLink(p, verifies)
    {
      SoundIff(p, sha, verifies);
    }
    HashesEach(o, sha);
    SignedEach(o, verifies);
    hide *;
  }

  /** In order, the link numbered `n` stands at least in its place... */
  lemma {:induction false} StandsLate(o: seq<Link>, a: nat)
    requires Sorted(o, BySequence) && a < |o| && o[a].sequence >= 1
    requires forall n :: 1 <= n <= o[a].sequence ==> Holds(o, n)
    ensures a + 1 >= o[a].sequence
    decreases o[a].sequence
  {
    if o[a].sequence > 1 {
      assert Holds(o, o[a].sequence - 1);
      var b :| 0 <= b < |o| && o[b].sequence == o[a].sequence - 1;
      assert a < b ==> BySequence(o[a], o[b]);
      StandsLate(o, b);
    }
  }

  /** ...and, when the numbers go up to the length, at most there. */
  lemma {:induction false} StandsEarly(o: seq<Link>, a: nat)
    requires Sorted(o, BySequence) && a < |o| && o[a].sequence <= |o|
    requires forall n :: o[a].sequence <= n <= |o| ==> Holds(o, n)
    ensures a + 1 <= o[a].sequence
    decreases |o| - o[a].sequence
  {
    if o[a].sequence < |o| {
      assert Holds(o, o[a].sequence + 1);
      var b :| 0 <= b < |o| && o[b].sequence == o[a].sequence + 1;
      assert b < a ==> BySequence(o[b], o[a]);
      StandsEarly(o, b);
    }
  }

  /** Links in order are numbered one by one exactly when every number up to their count occurs. */
  lemma ContiguousIff(o: seq<Link>)
    requires Sorted(o, BySequence)
    ensures Contiguous(o) <==> forall n :: 1 <= n <= |o| ==> Holds(o, n)
  {
    if Contiguous(o) {
      forall n | 1 <= n <= |o| ensures Holds(o, n) { assert o[n - 1] in o && o[n - 1].sequence == n; }
    }
    if forall n :: 1 <= n <= |o| ==> Holds(o, n) {
      forall i | 0 <= i < |o| ensures o[i].sequence == i + 1 {
        assert Holds(o, i + 1);
        var a :| 0 <= a < |o| && o[a].sequence == i + 1;
        StandsLate(o, a);
        StandsEarly(o, a);
      }
    }
  }

  /** In a contiguous chain consecutive numbers are neighbours, and number one is the first. */
  lemma NeighboursIff(o: seq<Link>)
    requires Contiguous(o)
    ensures StatesLink(o) && HashesLink(o) <==>
      && (forall p :: p in o && p.sequence == 1 ==> p.previousProofHash.None?)
      && (forall p, q :: p in o && q in o && q.sequence == p.sequence + 1 ==> Follows(p, q))
  {
    if StatesLink(o) && HashesLink(o) {
      forall p, q | p in o && q in o && q.sequence == p.sequence + 1 ensures Follows(p, q) {
        var i :| 0 <= i < |o| && o[i] == p;
        var j :| 0 <= j < |o| && o[j] == q;
        assert j == i + 1;
      }
      forall p | p in o && p.sequence == 1 ensures p.previousProofHash.None? {
        var i :| 0 <= i < |o| && o[i] == p;
        assert i == 0;
      }
    }
    if (forall p :: p in o && p.sequence == 1 ==> p.previousProofHash.None?)
      && (forall p, q :: p in o && q in o && q.sequence == p.sequence + 1 ==> Follows(p, q)) {
      forall i | 0 < i < |o| ensures Follows(o[i - 1], o[i]) { assert o[i - 1] in o && o[i] in o; }
      if o != [] { assert o[0] in o; }
    }
  }

  lemma OneAgreementIff(o: seq<Link>)
    ensures OneAgreement(o) <==> forall p, q :: p in o && q in o ==> p.agreementId == q.agreementId
  {
    if OneAgreement(o) {
      forall p, q | p in o && q in o ensures p.agreementId == q.agreementId {
        var i :| 0 <= i < |o| && o[i] == p;
        var j :| 0 <= j < |o| && o[j] == q;
      }
    } else {
      var i, j :| 0 <= i < |o| && 0 <= j < |o| && o[i].agreementId != o[j].agreementId;
      assert o[i] in o && o[j] in o;
    }
  }

  /**
   The verdict in terms of the links as served: a capture is accepted exactly when it is one history. So the states of
   an accepted capture join up, and so do its hashes.
   */
  lemma AcceptedIsOneHistory(links: seq<Link>, sha: Hasher, verifies: Verifier)
    ensures Accepts(links, sha, verifies) <==> OneHistory(links, sha, verifies)
  {
    var o := Ordered(links);
    SequenceOrder();
    SortSorts(links, BySequence);
    SameMembers(links, o);
    ContiguousIff(o);
    if Contiguous(o) { NeighboursIff(o); }
    OneAgreementIff(o);
    EachSound(o, sha, verifies);
    hide Contiguous, OneAgreement, StatesLink, HashesLink, ProofHashesHold, StateHashesHold, Signed, SchemaOk, Sound,
      Follows;
    hide Sort;
    forall n ensures Holds(links, n) <==> Holds(o, n) {}
  }

  // ------------------------------------------------------------------ the record a Runtime keeps of an agreement

  /** A Runtime: its hash and its key. */
  datatype Keeper = Keeper(sha: Hasher, sign: Bytes -> Bytes, key: Bytes)

  ghost predicate Honest(k: Keeper, verifies: Verifier) {
    k.key != [] && forall m :: k.sign(m) != [] && verifies(k.sign(m), m, k.key)
  }

  /** The states a transition leaves and enters. */
  type Move = (Bytes, Bytes)

  /** The members of a link that tie it to its place in the chain; the others are as given. */
  function Placed(k: Keeper, id: Bytes, given: Link, move: Move, i: nat, before: Option<Bytes>): Link {
    given.(agreementId := id, sequence := i + 1, fromState := Some(move.0), toState := move.1,
           previousStateHash := Some(StateHash(k.sha, id, move.0, i)),
           nextStateHash := Some(StateHash(k.sha, id, move.1, i + 1)), previousProofHash := before)
  }

  /** Hashed, then signed. */
  ghost function Sealed(k: Keeper, p: Link): Link {
    var hash := k.sha(Preimage(p));
    p.(proofHash := hash, signature := Some(k.sign(PROOF_TAG + hash)), signedBy := Some(k.key))
  }

  /** The record of a sequence of moves. */
  ghost function Recorded(k: Keeper, id: Bytes, given: seq<Link>, moves: seq<Move>): (r: seq<Link>)
    requires |given| == |moves|
    ensures |r| == |moves|
    decreases |moves|
  {
    if moves == [] then []
    else
      var n := |moves| - 1;
      var before := Recorded(k, id, given[..n], moves[..n]);
      before + [Sealed(k, Placed(k, id, given[n], moves[n], n, if n == 0 then None else Some(before[n - 1].proofHash)))]
  }

  lemma {:induction false} RecordedAt(k: Keeper, id: Bytes, given: seq<Link>, moves: seq<Move>, i: nat)
    requires |given| == |moves| && i < |moves|
    ensures var r := Recorded(k, id, given, moves);
      r[i] == Sealed(k, Placed(k, id, given[i], moves[i], i, if i == 0 then None else Some(r[i - 1].proofHash)))
    decreases |moves|
  {
    hide *;
    var n := |moves| - 1;
    RecordedLast(k, id, given, moves);
    if i < n {
      var r, before := Recorded(k, id, given, moves), Recorded(k, id, given[..n], moves[..n]);
      RecordedAt(k, id, given[..n], moves[..n], i);
      assert before[i] == r[..n][i] == r[i] && given[..n][i] == given[i] && moves[..n][i] == moves[i];
      if i > 0 { assert before[i - 1] == r[..n][i - 1] == r[i - 1]; }
    }
  }

  lemma RecordedLast(k: Keeper, id: Bytes, given: seq<Link>, moves: seq<Move>)
    requires |given| == |moves| > 0
    ensures var r, n := Recorded(k, id, given, moves), |moves| - 1;
      && r[..n] == Recorded(k, id, given[..n], moves[..n])
      && r[n] == Sealed(k, Placed(k, id, given[n], moves[n], n, if n == 0 then None else Some(r[n - 1].proofHash)))
  {
    hide Sealed, Placed;
  }

  /** A hash covers neither itself nor the signature. */
  lemma SealedSound(k: Keeper, p: Link, verifies: Verifier)
    requires Honest(k, verifies) && SchemaOk(p.(signature := None, signedBy := None))
    ensures var q := Sealed(k, p);
      && SchemaOk(q) && q.proofHash == k.sha(Preimage(q)) && SignedLink(q, verifies)
      && q == p.(proofHash := q.proofHash, signature := q.signature, signedBy := q.signedBy)
  {
    var q := Sealed(k, p);
    assert AllFields(q) == AllFields(p);
    hide AllFields, Fields;
  }

  lemma PlacedOk(k: Keeper, id: Bytes, given: Link, move: Move, i: nat, before: Option<Bytes>)
    requires given.commandId.Some? <==> given.commandHash.Some?
    ensures SchemaOk(Placed(k, id, given, move, i, before).(signature := None, signedBy := None))
  {
  }

  ghost predicate Given(given: seq<Link>) {
    forall i :: 0 <= i < |given| ==> (given[i].commandId.Some? <==> given[i].commandHash.Some?)
  }

  ghost predicate Joined(moves: seq<Move>) { forall i :: 0 < i < |moves| ==> moves[i].0 == moves[i - 1].1 }

  lemma RecordedSound(k: Keeper, id: Bytes, given: seq<Link>, moves: seq<Move>, verifies: Verifier)
    requires |given| == |moves| && Given(given) && Honest(k, verifies)
    requires forall i :: 0 <= i < |moves| ==> moves[i].0 != []
    ensures var r := Recorded(k, id, given, moves);
      && Contiguous(r) && OneAgreement(r) && HashesLink(r) && (StatesLink(r) <==> Joined(moves))
      && (forall p :: p in r ==> SchemaOk(p))
      && ProofHashesHold(r, k.sha) && StateHashesHold(r, k.sha) && Signed(r, verifies)
  {
    var r := Recorded(k, id, given, moves);
    hide Recorded, Sealed, Preimage, StateHash, SignedLink, Honest, SchemaOk;
    forall i | 0 <= i < |r| ensures RecordedLink(k, id, moves, r, i, verifies) {
      RecordedAt(k, id, given, moves, i);
      var p := Placed(k, id, given[i], moves[i], i, if i == 0 then None else Some(r[i - 1].proofHash));
      PlacedOk(k, id, given[i], moves[i], i, p.previousProofHash);
      SealedSound(k, p, verifies);
    }
    assert RecordedAll(k, id, moves, r, verifies);
    hide *;
    RecordJoins(k, id, moves, r, verifies);
    RecordSigned(k, id, moves, r, verifies);
  }

  /** What is recorded of the `i`-th move. */
  ghost predicate RecordedLink(k: Keeper, id: Bytes, moves: seq<Move>, r: seq<Link>, i: nat, verifies: Verifier)
    requires i < |r| == |moves|
  {
    var p := r[i];
    && SchemaOk(p) && p.proofHash == k.sha(Preimage(p)) && SignedLink(p, verifies)
    && p.agreementId == id && p.sequence == i + 1 && p.fromState == Some(moves[i].0) && p.toState == moves[i].1
    && p.previousStateHash == Some(StateHash(k.sha, id, moves[i].0, i))
    && p.nextStateHash == Some(StateHash(k.sha, id, moves[i].1, i + 1))
    && p.previousProofHash == if i == 0 then None else Some(r[i - 1].proofHash)
  }

  ghost predicate RecordedAll(k: Keeper, id: Bytes, moves: seq<Move>, r: seq<Link>, verifies: Verifier) {
    |r| == |moves| && forall i :: 0 <= i < |r| ==> RecordedLink(k, id, moves, r, i, verifies)
  }

  lemma RecordJoins(k: Keeper, id: Bytes, moves: seq<Move>, r: seq<Link>, verifies: Verifier)
    requires RecordedAll(k, id, moves, r, verifies)
    ensures Contiguous(r) && OneAgreement(r) && HashesLink(r) && (StatesLink(r) <==> Joined(moves))
  {
    hide SchemaOk, Preimage, StateHash, SignedLink;
    forall i | 0 <= i < |r|
      ensures r[i].agreementId == id && r[i].sequence == i + 1
      ensures r[i].fromState == Some(moves[i].0) && r[i].toState == moves[i].1
    {
      assert RecordedLink(k, id, moves, r, i, verifies);
    }
    forall i | 0 < i < |r| ensures r[i].previousProofHash == Some(r[i - 1].proofHash) {
      assert RecordedLink(k, id, moves, r, i, verifies);
    }
    if r != [] { assert RecordedLink(k, id, moves, r, 0, verifies); }
    hide RecordedAll, RecordedLink;
  }

  lemma RecordSigned(k: Keeper, id: Bytes, moves: seq<Move>, r: seq<Link>, verifies: Verifier)
    requires RecordedAll(k, id, moves, r, verifies) && forall i :: 0 <= i < |moves| ==> moves[i].0 != []
    ensures (forall p :: p in r ==> SchemaOk(p)) && ProofHashesHold(r, k.sha) && StateHashesHold(r, k.sha)
    ensures Signed(r, verifies)
  {
    hide SchemaOk, Preimage, StateHash, PROOF_TAG;
    forall i | 0 <= i < |r|
      ensures r[i].proofHash == k.sha(Preimage(r[i])) && SignedLink(r[i], verifies)
      ensures r[i].agreementId == id && r[i].sequence == i + 1 && r[i].fromState == Some(moves[i].0)
      ensures r[i].toState == moves[i].1 && moves[i].0 != []
      ensures r[i].previousStateHash == Some(StateHash(k.sha, id, moves[i].0, i))
      ensures r[i].nextStateHash == Some(StateHash(k.sha, id, moves[i].1, i + 1))
    {
      assert RecordedLink(k, id, moves, r, i, verifies);
    }
    forall p | p in r ensures SchemaOk(p) {
      var i :| 0 <= i < |r| && r[i] == p;
      assert RecordedLink(k, id, moves, r, i, verifies);
    }
  }

  /**
   A Runtime's record is accepted exactly when its states join up, whatever else it says: hashing and signing a record
   with a gap anew does not help.
   */
  lemma RecordAcceptedIff(k: Keeper, id: Bytes, given: seq<Link>, moves: seq<Move>, verifies: Verifier)
    requires |given| == |moves| && Given(given) && Honest(k, verifies)
    requires forall i :: 0 <= i < |moves| ==> moves[i].0 != []
    ensures Accepts(Recorded(k, id, given, moves), k.sha, verifies) <==> moves != [] && Joined(moves)
  {
    var r := Recorded(k, id, given, moves);
    RecordedSound(k, id, given, moves, verifies);
    hide *;
    InOrder(r);
    if Accepts(r, k.sha, verifies) { AcceptsAll(r, k.sha, verifies); }
    if moves != [] && Joined(moves) { Accepted(r, k.sha, verifies); }
  }

  lemma InOrder(r: seq<Link>)
    requires Contiguous(r)
    ensures Ordered(r) == r
  {
    SequenceOrder();
    SortSorts(r, BySequence);
    forall p, q | p in r && q in r && BySequence(p, q) && BySequence(q, p) ensures p == q {
      var i :| 0 <= i < |r| && r[i] == p;
      var j :| 0 <= j < |r| && r[j] == q;
    }
    SortedUnique(r, Sort(r, BySequence), BySequence);
  }

  // ------------------------------------------------------------------ the runs of an agreement

  function StateName(s: Agreement.State): Bytes {
    match s
    case PROPOSED => Settlement.Chars("PROPOSED")
    case COMMITTED => Settlement.Chars("COMMITTED")
    case FULFILLING => Settlement.Chars("FULFILLING")
    case DELIVERED => Settlement.Chars("DELIVERED")
    case REJECTED => Settlement.Chars("REJECTED")
    case DISPUTED => Settlement.Chars("DISPUTED")
    case ACCEPTED => Settlement.Chars("ACCEPTED")
    case RESOLVED => Settlement.Chars("RESOLVED")
    case CANCELLED => Settlement.Chars("CANCELLED")
    case DEFAULTED => Settlement.Chars("DEFAULTED")
    case EXPIRED => Settlement.Chars("EXPIRED")
  }

  /** No two states share a name: they differ within their first three letters. */
  lemma StateNamesDiffer(s: Agreement.State, t: Agreement.State)
    ensures StateName(s) != [] && (StateName(s) == StateName(t) ==> s == t)
  {
    var a, b := StateName(s), StateName(t);
    assert |a| > 6 && |b| > 6;
    assert a == b ==> a[0] == b[0] && a[1] == b[1] && a[2] == b[2];
  }

  function MovesOf<P>(chain: seq<Agreement.Link<P>>): (r: seq<Move>)
    ensures |r| == |chain|
  {
    seq(|chain|, i requires 0 <= i < |chain| => (StateName(chain[i].from), StateName(chain[i].to)))
  }

  lemma {:induction false} PathJoins<P>(chain: seq<Agreement.Link<P>>, end: Agreement.State)
    requires Agreement.Path(chain, end)
    ensures forall i :: 0 < i < |chain| ==> chain[i].from == chain[i - 1].to
    ensures chain != [] ==> chain[|chain| - 1].to == end
    decreases |chain|
  {
    if chain != [] { PathJoins(chain[..|chain| - 1], chain[|chain| - 1].from); }
  }

  lemma NamesNotEmpty<P>(chain: seq<Agreement.Link<P>>)
    ensures forall i :: 0 <= i < |chain| ==> MovesOf(chain)[i].0 != []
  {
    forall i | 0 <= i < |chain| ensures MovesOf(chain)[i].0 != [] { StateNamesDiffer(chain[i].from, chain[i].from); }
  }

  /** What a Runtime records of any run of an agreement is accepted. */
  lemma RunsAreAccepted<P>(
      k: Keeper, id: Bytes, given: seq<Link>, inputs: seq<Agreement.Input<P>>, verifies: Verifier)
    requires var m := Agreement.Run(Agreement.Genesis<P>(), inputs);
      m.chain != [] && |given| == |m.chain| && Given(given) && Honest(k, verifies)
    ensures var m := Agreement.Run(Agreement.Genesis<P>(), inputs);
      Accepts(Recorded(k, id, given, MovesOf(m.chain)), k.sha, verifies)
  {
    var m := Agreement.Run(Agreement.Genesis<P>(), inputs);
    Agreement.RunConsistent(Agreement.Genesis<P>(), inputs);
    PathJoins(m.chain, m.state);
    NamesNotEmpty(m.chain);
    hide Agreement.Run, Accepts, Recorded, StateName;
    RecordAcceptedIff(k, id, given, MovesOf(m.chain), verifies);
  }

  /**
   Another state in place of the one a run left, hashed and signed anew, is refused: the record of a run with the
   state before any later move changed is not accepted.
   */
  lemma AlteredRunIsRefused<P>(
      k: Keeper, id: Bytes, given: seq<Link>, inputs: seq<Agreement.Input<P>>, verifies: Verifier, i: nat,
      s: Agreement.State)
    requires var m := Agreement.Run(Agreement.Genesis<P>(), inputs);
      && |given| == |m.chain| && Given(given) && Honest(k, verifies)
      && 0 < i < |m.chain| && s != m.chain[i].from
    ensures var m := Agreement.Run(Agreement.Genesis<P>(), inputs);
      !Accepts(Recorded(k, id, given, MovesOf(m.chain[i := m.chain[i].(from := s)])), k.sha, verifies)
  {
    var m := Agreement.Run(Agreement.Genesis<P>(), inputs);
    Agreement.RunConsistent(Agreement.Genesis<P>(), inputs);
    PathJoins(m.chain, m.state);
    var altered := m.chain[i := m.chain[i].(from := s)];
    NamesNotEmpty(altered);
    StateNamesDiffer(s, m.chain[i].from);
    hide Agreement.Run, Accepts, Recorded, StateName;
    assert MovesOf(altered)[i].0 != MovesOf(altered)[i - 1].1;
    RecordAcceptedIff(k, id, given, MovesOf(altered), verifies);
  }
}
