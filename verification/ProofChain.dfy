/**
 The Runtime's transition proofs: the length-prefixed preimage of a proof hash, and the checks that
 accept a captured chain. Strings are their UTF-8 bytes.
 */
module ProofChain {
  import opened Sorting
  import opened Decimal
  import Settlement

  type Bytes = seq<int>

  const COLON := ':' as int

  // ------------------------------------------------------------------ length-prefixed fields

  /** `_wf`: the byte length in decimal, a colon, the bytes. */
  function Field(b: Bytes): Bytes { Print(|b|) + ([COLON] + b) }

  function Fields(fs: seq<Bytes>): Bytes {
    if fs == [] then [] else Field(fs[0]) + Fields(fs[1..])
  }

  /** The first field of a stream and what follows it. */
  function ReadField(s: Bytes): Option<(Bytes, Bytes)> {
    var k := Run(s);
    if k == 0 || k == |s| || s[k] != COLON then None
    else
      var n := Value(s[..k]);
      if k + 1 + n > |s| then None else Some((s[k + 1..k + 1 + n], s[k + 1 + n..]))
  }

  function ReadFields(s: Bytes): Option<seq<Bytes>>
    decreases |s|
  {
    if s == [] then Some([])
    else
      match ReadField(s)
      case None => None
      case Some((b, rest)) =>
        if |rest| >= |s| then None
        else
          match ReadFields(rest)
          case None => None
          case Some(fs) => Some([b] + fs)
  }

  lemma ReadsField(b: Bytes, rest: Bytes)
    ensures ReadField(Field(b) + rest) == Some((b, rest))
  {
    var p := Print(|b|);
    var s := Field(b) + rest;
    assert s == p + ([COLON] + (b + rest));
    RunOfConcat(p, [COLON] + (b + rest));
    assert s[..|p|] == p && s[|p|] == COLON;
    ValueOfPrint(|b|);
    assert s[|p| + 1..|p| + 1 + |b|] == b && s[|p| + 1 + |b|..] == rest;
  }

  /** Unique decodability: a stream of fields is read back as exactly the fields it was written from. */
  lemma {:induction false} ReadsFields(fs: seq<Bytes>)
    ensures ReadFields(Fields(fs)) == Some(fs)
  {
    if fs != [] {
      var rest := Fields(fs[1..]);
      ReadsField(fs[0], rest);
      ReadsFields(fs[1..]);
      assert |Field(fs[0])| > 0;
      hide Field, ReadField;
      assert fs == [fs[0]] + fs[1..];
    }
  }

  lemma FieldsInjective(a: seq<Bytes>, b: seq<Bytes>)
    requires Fields(a) == Fields(b)
    ensures a == b
  {
    ReadsFields(a);
    ReadsFields(b);
  }

  // ------------------------------------------------------------------ links

  /** One proof as served; an absent member is `None`. */
  datatype Link = Link(
    agreementId: Bytes, sequence: nat, fromState: Option<Bytes>, toState: Bytes, event: Bytes,
    previousStateHash: Option<Bytes>, nextStateHash: Option<Bytes>, previousProofHash: Option<Bytes>,
    actorId: Option<Bytes>, authorityRef: Option<Bytes>, commandId: Option<Bytes>, commandHash: Option<Bytes>,
    metadata: Option<map<Bytes, Bytes>>, evidenceRefs: Option<seq<Bytes>>, createdAt: Bytes,
    proofHash: Bytes, proofId: Option<Bytes>, signature: Option<Bytes>, signedBy: Option<Bytes>)

  function Or(o: Option<Bytes>): Bytes { if o.Some? then o.value else [] }

  function Metadata(p: Link): map<Bytes, Bytes> { if p.metadata.Some? then p.metadata.value else map[] }

  function Refs(p: Link): seq<Bytes> { if p.evidenceRefs.Some? then p.evidenceRefs.value else [] }

  /**
   What a proof hash covers, absent and empty identified: not the proof's own identifier, its hash or its
   signature.
   */
  datatype Content = Content(
    agreementId: Bytes, sequence: nat, fromState: Bytes, toState: Bytes, event: Bytes,
    previousStateHash: Bytes, nextStateHash: Bytes, previousProofHash: Bytes, actorId: Bytes,
    authorityRef: Bytes, commandId: Bytes, commandHash: Bytes,
    metadata: map<Bytes, Bytes>, evidenceRefs: seq<Bytes>, createdAt: Bytes)

  function ContentOf(p: Link): Content {
    Content(p.agreementId, p.sequence, Or(p.fromState), p.toState, p.event, Or(p.previousStateHash),
            Or(p.nextStateHash), Or(p.previousProofHash), Or(p.actorId), Or(p.authorityRef), Or(p.commandId),
            Or(p.commandHash), Metadata(p), Refs(p), p.createdAt)
  }

  // ------------------------------------------------------------------ metadata in key order

  lemma {:induction false} LeastKeyExists(ks: set<Bytes>)
    requires ks != {}
    ensures exists k :: k in ks && forall j :: j in ks ==> LexLe(k, j)
  {
    var k :| k in ks;
    var rest := ks - {k};
    assert ks == rest + {k};
    if rest == {} {
      LexTotal(k, k);
      assert forall j :: j in ks ==> LexLe(k, j);
    } else {
      LeastKeyExists(rest);
      var l :| l in rest && forall j :: j in rest ==> LexLe(l, j);
      LeastOfTwo(ks, rest, k, l);
    }
  }

  lemma LeastOfTwo(ks: set<Bytes>, rest: set<Bytes>, k: Bytes, l: Bytes)
    requires ks == rest + {k} && l in rest && forall j :: j in rest ==> LexLe(l, j)
    ensures exists m :: m in ks && forall j :: j in ks ==> LexLe(m, j)
  {
    LexTotal(k, k);
    LexTotal(k, l);
    var m := if LexLe(k, l) then k else l;
    forall j | j in ks ensures LexLe(m, j) {
      if j != k && m == k { LexTransitive(k, l, j); }
    }
    assert m in ks;
  }

  /** The keys of a mapping in bytewise order. */
  ghost function SortedKeys(ks: set<Bytes>): (r: seq<Bytes>)
    ensures |r| == |ks|
    ensures forall k :: k in r <==> k in ks
  {
    if ks == {} then []
    else
      LeastKeyExists(ks);
      var k :| k in ks && forall j :: j in ks ==> LexLe(k, j);
      [k] + SortedKeys(ks - {k})
  }

  lemma {:induction false} SortedKeysSorted(ks: set<Bytes>)
    ensures Sorted(SortedKeys(ks), LexLe)
  {
    if ks != {} {
      var r := SortedKeys(ks);
      SortedKeysSorted(ks - {r[0]});
      assert r[1..] == SortedKeys(ks - {r[0]});
      forall i, j | 0 <= i < j < |r| ensures LexLe(r[i], r[j]) {
        if i == 0 { assert r[j] in ks; } else { assert r[i] == r[1..][i - 1] && r[j] == r[1..][j - 1]; }
      }
    }
  }

  function Pairs(m: map<Bytes, Bytes>, keys: seq<Bytes>): (r: seq<Bytes>)
    requires forall k :: k in keys ==> k in m
    ensures |r| == 2 * |keys|
  {
    if keys == [] then [] else [keys[0], m[keys[0]]] + Pairs(m, keys[1..])
  }

  lemma {:induction false} PairAt(m: map<Bytes, Bytes>, keys: seq<Bytes>, i: nat)
    requires (forall k :: k in keys ==> k in m) && i < |keys|
    ensures Pairs(m, keys)[2 * i] == keys[i] && Pairs(m, keys)[2 * i + 1] == m[keys[i]]
  {
    if i > 0 { PairAt(m, keys[1..], i - 1); }
  }

  lemma PairsInjective(m: map<Bytes, Bytes>, n: map<Bytes, Bytes>)
    requires Pairs(m, SortedKeys(m.Keys)) == Pairs(n, SortedKeys(n.Keys))
    ensures m == n
  {
    hide SortedKeys, Pairs;
    var a, b := SortedKeys(m.Keys), SortedKeys(n.Keys);
    assert |a| == |b|;
    forall i | 0 <= i < |a| ensures a[i] == b[i] && m[a[i]] == n[b[i]] {
      PairAt(m, a, i);
      PairAt(n, b, i);
    }
    assert a == b;
    forall k | k in m ensures k in n && m[k] == n[k] {
      assert k in a;
      var i :| 0 <= i < |a| && a[i] == k;
      assert m[a[i]] == n[b[i]];
    }
    forall k | k in n ensures k in m { assert k in b; }
  }

  // ------------------------------------------------------------------ the proof-hash preimage

  function Head(p: Link): (r: seq<Bytes>)
    ensures |r| == 12
  {
    [p.agreementId, Print(p.sequence), Or(p.fromState), p.toState, p.event, Or(p.previousStateHash),
     Or(p.nextStateHash), Or(p.previousProofHash), Or(p.actorId), Or(p.authorityRef), Or(p.commandId),
       Or(p.commandHash)]
  }

  /** Every field in its frozen order: twelve members, the counted metadata, the counted references, the time. */
  ghost function AllFields(p: Link): seq<Bytes> {
    var keys := SortedKeys(Metadata(p).Keys);
    Head(p) + ([Print(|keys|)] + (Pairs(Metadata(p), keys) + ([Print(|Refs(p)|)] + (Refs(p) + [p.createdAt]))))
  }

  ghost function Preimage(p: Link): Bytes { Fields(AllFields(p)) }

  lemma {:induction false} FieldsConcat(a: seq<Bytes>, b: seq<Bytes>)
    ensures Fields(a + b) == Fields(a) + Fields(b)
  {
    if a == [] {
      assert a + b == b;
    } else {
      assert (a + b)[1..] == a[1..] + b;
      FieldsConcat(a[1..], b);
    }
  }

  lemma FieldsSnoc(a: seq<Bytes>, f: Bytes)
    ensures Fields(a + [f]) == Fields(a) + Field(f)
  {
    FieldsConcat(a, [f]);
    assert [f][1..] == [];
  }

  lemma {:induction false} SortedKeysOnce(ks: set<Bytes>)
    ensures multiset(SortedKeys(ks)) == multiset(ks)
  {
    if ks != {} {
      var r := SortedKeys(ks);
      SortedKeysOnce(ks - {r[0]});
      assert r == [r[0]] + SortedKeys(ks - {r[0]});
      assert ks == (ks - {r[0]}) + {r[0]};
    }
  }

  /** The metadata keys in the order the hasher sees them. */
  method KeysInOrder(m: map<Bytes, Bytes>) returns (keys: seq<Bytes>)
    ensures keys == SortedKeys(m.Keys)
  {
    var rest, found := m.Keys, [];
    while rest != {}
      invariant rest <= m.Keys && multiset(found) + multiset(rest) == multiset(m.Keys)
      decreases |rest|
    {
      var k :| k in rest;
      found := found + [k];
      rest := rest - {k};
    }
    keys := Sort(found, LexLe);
    LexOrder();
    SortSorts(found, LexLe);
    SortedKeysSorted(m.Keys);
    SortedKeysOnce(m.Keys);
    SortedUnique(keys, SortedKeys(m.Keys), LexLe);
  }

  /** Feed a hasher one field after another. */
  method Feed(fed: Bytes, fs: seq<Bytes>) returns (h: Bytes)
    ensures h == fed + Fields(fs)
  {
    h := fed;
    for i := 0 to |fs|
      invariant h == fed + Fields(fs[..i])
    {
      FieldsSnoc(fs[..i], fs[i]);
      assert fs[..i + 1] == fs[..i] + [fs[i]];
      h := h + Field(fs[i]);
    }
    assert fs[..|fs|] == fs;
  }

  /** Feed a hasher a mapping, key then value. */
  method FeedPairs(fed: Bytes, m: map<Bytes, Bytes>, keys: seq<Bytes>) returns (h: Bytes)
    requires forall k :: k in keys ==> k in m
    ensures h == fed + Fields(Pairs(m, keys))
  {
    h := fed;
    assert Fields([]) == [];
    hide Fields, Pairs, Field;
    for i := 0 to |keys|
      invariant h == fed + Fields(Pairs(m, keys)[..2 * i])
    {
      PairAt(m, keys, i);
      var done := Pairs(m, keys)[..2 * i];
      FieldsSnoc(done, keys[i]);
      FieldsSnoc(done + [keys[i]], m[keys[i]]);
      assert Pairs(m, keys)[..2 * (i + 1)] == done + [keys[i]] + [m[keys[i]]];
      h := h + Field(keys[i]) + Field(m[keys[i]]);
    }
    assert Pairs(m, keys)[..2 * |keys|] == Pairs(m, keys);
  }

  lemma FiveRuns(a: seq<Bytes>, b: seq<Bytes>, c: seq<Bytes>, d: seq<Bytes>, e: seq<Bytes>)
    ensures [] + Fields(a) + Fields(b) + Fields(c) + Fields(d) + Fields(e) == Fields(a + (b + (c + (d + e))))
  {
    FieldsConcat(d, e);
    FieldsConcat(c, d + e);
    FieldsConcat(b, c + (d + e));
    FieldsConcat(a, b + (c + (d + e)));
    FiveInOne(Fields(a), Fields(b), Fields(c), Fields(d), Fields(e));
  }

  lemma FiveInOne(a: Bytes, b: Bytes, c: Bytes, d: Bytes, e: Bytes)
    ensures [] + a + b + c + d + e == a + (b + (c + (d + e)))
  {
  }

  /** `proof_hash` up to the digest. */
  method FeedProof(p: Link) returns (h: Bytes)
    ensures h == Preimage(p)
  {
    var keys := KeysInOrder(Metadata(p));
    h := Feed([], Head(p));
    h := Feed(h, [Print(|keys|)]);
    h := FeedPairs(h, Metadata(p), keys);
    h := Feed(h, [Print(|Refs(p)|)]);
    h := Feed(h, Refs(p) + [p.createdAt]);
    FiveRuns(Head(p), [Print(|keys|)], Pairs(Metadata(p), keys), [Print(|Refs(p)|)], Refs(p) + [p.createdAt]);
  }

  lemma ConcatSplit<T>(a: seq<T>, b: seq<T>, c: seq<T>, d: seq<T>)
    requires a + b == c + d && |a| == |c|
    ensures a == c && b == d
  {
    assert a == (a + b)[..|a|] && b == (a + b)[|a|..];
    assert c == (c + d)[..|c|] && d == (c + d)[|c|..];
  }

  /** The preimage is the same exactly when the links say the same. */
  lemma PreimageInjective(p: Link, q: Link)
    ensures Preimage(p) == Preimage(q) <==> ContentOf(p) == ContentOf(q)
  {
    if Preimage(p) == Preimage(q) {
      FieldsInjective(AllFields(p), AllFields(q));
      var kp, kq := SortedKeys(Metadata(p).Keys), SortedKeys(Metadata(q).Keys);
      var rp, rq := Refs(p) + [p.createdAt], Refs(q) + [q.createdAt];
      var mp, mq := Pairs(Metadata(p), kp) + ([Print(|Refs(p)|)] + rp), Pairs(Metadata(q),
        kq) + ([Print(|Refs(q)|)] + rq);
      ConcatSplit(Head(p), [Print(|kp|)] + mp, Head(q), [Print(|kq|)] + mq);
      ConcatSplit([Print(|kp|)], mp, [Print(|kq|)], mq);
      assert [Print(|kp|)][0] == [Print(|kq|)][0];
      PrintInjective(|kp|, |kq|);
      ConcatSplit(Pairs(Metadata(p), kp), [Print(|Refs(p)|)] + rp, Pairs(Metadata(q), kq), [Print(|Refs(q)|)] + rq);
      ConcatSplit([Print(|Refs(p)|)], rp, [Print(|Refs(q)|)], rq);
      assert [Print(|Refs(p)|)][0] == [Print(|Refs(q)|)][0];
      PrintInjective(|Refs(p)|, |Refs(q)|);
      ConcatSplit(Refs(p), [p.createdAt], Refs(q), [q.createdAt]);
      assert [p.createdAt][0] == [q.createdAt][0];
      PairsInjective(Metadata(p), Metadata(q));
      SameHead(p, q);
    }
  }

  lemma SameHead(p: Link, q: Link)
    requires Head(p) == Head(q)
    ensures p.agreementId == q.agreementId && p.sequence == q.sequence && Or(p.fromState) == Or(q.fromState)
    ensures p.toState == q.toState && p.event == q.event && Or(p.previousStateHash) == Or(q.previousStateHash)
    ensures Or(p.nextStateHash) == Or(q.nextStateHash) && Or(p.previousProofHash) == Or(q.previousProofHash)
    ensures Or(p.actorId) == Or(q.actorId) && Or(p.authorityRef) == Or(q.authorityRef)
    ensures Or(p.commandId) == Or(q.commandId) && Or(p.commandHash) == Or(q.commandHash)
  {
    var a, b := Head(p), Head(q);
    assert a[0] == b[0] && a[1] == b[1] && a[2] == b[2] && a[3] == b[3] && a[4] == b[4] && a[5] == b[5];
    assert a[6] == b[6] && a[7] == b[7] && a[8] == b[8] && a[9] == b[9] && a[10] == b[10] && a[11] == b[11];
    PrintInjective(p.sequence, q.sequence);
  }

  // ------------------------------------------------------------------ checking a capture

  /** The digest text of a byte string. */
  type Hasher = Bytes -> Bytes

  /** Whether a signature over a message recovers to a signer. */
  type Verifier = (Bytes, Bytes, Bytes) -> bool

  ghost predicate CollisionFree(sha: Hasher) { forall x, y :: sha(x) == sha(y) ==> x == y }

  function StateHash(sha: Hasher, agreementId: Bytes, state: Bytes, sequence: nat): Bytes {
    sha(Fields([agreementId, state, Print(sequence)]))
  }

  const PROOF_TAG: Bytes := Settlement.Chars("kite:fulfill:transition-proof:v1")

  predicate BySequence(p: Link, q: Link) { p.sequence <= q.sequence }

  function Ordered(links: seq<Link>): seq<Link> { Sort(links, BySequence) }

  /** The schema's own constraints on members: positions start at 1, and two members come in pairs. */
  predicate SchemaOk(p: Link) {
    p.sequence >= 1 && p.signedBy.Some? == p.signature.Some? && p.commandId.Some? == p.commandHash.Some?
  }

  predicate Contiguous(o: seq<Link>) { forall i :: 0 <= i < |o| ==> o[i].sequence == i + 1 }

  predicate OneAgreement(
      o: seq<Link>) { forall i, j :: 0 <= i < |o| && 0 <= j < |o| ==> o[i].agreementId == o[j].agreementId }

  predicate StatesLink(o: seq<Link>) { forall i :: 0 < i < |o| ==> o[i].fromState == Some(o[i - 1].toState) }

  predicate HashesLink(o: seq<Link>) {
    (o != [] ==> o[0].previousProofHash.None?) &&
    forall i :: 0 < i < |o| ==> o[i].previousProofHash == Some(o[i - 1].proofHash)
  }

  ghost predicate ProofHashesHold(o: seq<Link>, sha: Hasher) {
    forall i :: 0 <= i < |o| ==> o[i].proofHash == sha(Preimage(o[i]))
  }

  predicate StateHashesHold(o: seq<Link>, sha: Hasher) {
    forall i :: 0 <= i < |o| ==>
      && (o[i].previousStateHash.Some? ==>
            && Or(o[i].fromState) != [] && o[i].sequence >= 1
            && o[i].previousStateHash.value == StateHash(sha, o[i].agreementId, Or(o[i].fromState), o[i].sequence - 1))
      && (o[i].nextStateHash.Some? ==>
            o[i].nextStateHash.value == StateHash(sha, o[i].agreementId, o[i].toState, o[i].sequence))
  }

  predicate Signed(o: seq<Link>, verifies: Verifier) {
    forall i :: 0 <= i < |o| ==>
      Or(o[i].signature) != [] && Or(o[i].signedBy) != [] &&
      verifies(Or(o[i].signature), PROOF_TAG + o[i].proofHash, Or(o[i].signedBy))
  }

  /** The overall verdict on a captured chain, in whatever order its links were served. */
  ghost predicate Accepts(links: seq<Link>, sha: Hasher, verifies: Verifier) {
    var o := Ordered(links);
    && links != []
    && (forall p :: p in links ==> SchemaOk(p))
    && Contiguous(o) && OneAgreement(o) && StatesLink(o) && HashesLink(o)
    && ProofHashesHold(o, sha) && StateHashesHold(o, sha) && Signed(o, verifies)
  }

  lemma SequenceOrder()
    ensures Order(BySequence)
  {
  }

  lemma ContiguousTieFree(links: seq<Link>)
    requires Contiguous(Ordered(links))
    ensures TieFree(links, BySequence)
  {
    var o := Ordered(links);
    SameMembers(o, links);
    forall p, q | p in links && q in links && BySequence(p, q) && BySequence(q, p) ensures p == q {
      assert p in o && q in o;
      var i :| 0 <= i < |o| && o[i] == p;
      var j :| 0 <= j < |o| && o[j] == q;
      assert i == j;
    }
  }

  /** A capture is judged by its links, never by the order they were served in. */
  lemma ServingOrderIrrelevant(a: seq<Link>, b: seq<Link>, sha: Hasher, verifies: Verifier)
    requires multiset(a) == multiset(b)
    ensures Accepts(a, sha, verifies) <==> Accepts(b, sha, verifies)
  {
    SequenceOrder();
    SameMembers(a, b);
    if Contiguous(Ordered(a)) {
      ContiguousTieFree(a);
      SortPermutation(a, b, BySequence);
    }
    if Contiguous(Ordered(b)) {
      ContiguousTieFree(b);
      SortPermutation(b, a, BySequence);
    }
  }

  function Newest(links: seq<Link>): Bytes
    requires links != []
  {
    var o := Ordered(links);
    o[|o| - 1].proofHash
  }

  lemma AcceptsParts(links: seq<Link>, sha: Hasher, verifies: Verifier)
    requires Accepts(links, sha, verifies)
    ensures var o := Ordered(links);
      && links != [] && |o| == |links| && (forall p :: p in links <==> p in o)
      && Contiguous(o) && HashesLink(o) && ProofHashesHold(o, sha)
  {
    hide Contiguous, HashesLink, ProofHashesHold, OneAgreement, StatesLink, StateHashesHold, Signed, SchemaOk;
    SameMembers(links, Ordered(links));
  }

  lemma Standing(o: seq<Link>, p: Link) returns (i: nat)
    requires p in o
    ensures i < |o| && o[i] == p
  {
    i :| 0 <= i < |o| && o[i] == p;
  }

  lemma EndsAgree(a: seq<Link>, b: seq<Link>, sha: Hasher)
    requires CollisionFree(sha) && a != [] && b != []
    requires Contiguous(a) && Contiguous(b) && HashesLink(a) && HashesLink(b)
    requires ProofHashesHold(a, sha) && ProofHashesHold(b, sha)
    requires a[|a| - 1].proofHash == b[|b| - 1].proofHash
    ensures |a| == |b| && forall k :: 0 <= k < |a| ==> ContentOf(a[k]) == ContentOf(b[k])
  {
    hide *;
    ChainsAgree(a, b, |a| - 1, |b| - 1, sha);
  }

  lemma NewestIsLast(links: seq<Link>)
    requires links != [] && |Ordered(links)| == |links|
    ensures Newest(links) == Ordered(links)[|links| - 1].proofHash
  {
  }

  lemma LinksAgree(p: Link, q: Link, sha: Hasher)
    requires CollisionFree(sha) && sha(Preimage(p)) == sha(Preimage(q))
    ensures ContentOf(p) == ContentOf(q)
    ensures p.sequence == q.sequence && Or(p.previousProofHash) == Or(q.previousProofHash)
  {
    PreimageInjective(p, q);
  }

  /** Two checked chains that agree on a proof hash somewhere agree on every link before it. */
  lemma {:induction false} ChainsAgree(a: seq<Link>, b: seq<Link>, i: nat, j: nat, sha: Hasher)
    requires CollisionFree(sha) && i < |a| && j < |b|
    requires Contiguous(a) && Contiguous(b) && HashesLink(a) && HashesLink(b)
    requires ProofHashesHold(a, sha) && ProofHashesHold(b, sha)
    requires a[i].proofHash == b[j].proofHash
    ensures i == j
    ensures forall k :: 0 <= k <= i ==> ContentOf(a[k]) == ContentOf(b[k]) && a[k].proofHash == b[k].proofHash
  {
    hide Preimage, ContentOf;
    LinksAgree(a[i], b[j], sha);
    assert a[i].sequence == i + 1 && b[j].sequence == j + 1;
    if i > 0 {
      assert a[i].previousProofHash == Some(a[i - 1].proofHash) && b[j].previousProofHash == Some(b[j - 1].proofHash);
      ChainsAgree(a, b, i - 1, j - 1, sha);
    }
  }

  /**
   Accepting a capture pins the history its newest proof hash covers, and that hash pins nothing else: two accepted
   captures end in one hash exactly when they agree, link for link, on everything proof hashes cover.
   */
  lemma HistoryPinned(a: seq<Link>, b: seq<Link>, sha: Hasher, verifies: Verifier)
    requires CollisionFree(sha) && Accepts(a, sha, verifies) && Accepts(b, sha, verifies)
    ensures Newest(a) == Newest(b) <==>
      |a| == |b| && forall k :: 0 <= k < |a| ==> ContentOf(Ordered(a)[k]) == ContentOf(Ordered(b)[k])
  {
    hide *;
    AcceptsParts(a, sha, verifies);
    AcceptsParts(b, sha, verifies);
    NewestIsLast(a);
    NewestIsLast(b);
    EndsMeet(Ordered(a), Ordered(b), sha);
  }

  lemma EndsMeet(a: seq<Link>, b: seq<Link>, sha: Hasher)
    requires CollisionFree(sha) && a != [] && b != []
    requires Contiguous(a) && Contiguous(b) && HashesLink(a) && HashesLink(b)
    requires ProofHashesHold(a, sha) && ProofHashesHold(b, sha)
    ensures a[|a| - 1].proofHash == b[|b| - 1].proofHash <==>
      |a| == |b| && forall k :: 0 <= k < |a| ==> ContentOf(a[k]) == ContentOf(b[k])
  {
    hide *;
    if a[|a| - 1].proofHash == b[|b| - 1].proofHash { EndsAgree(a, b, sha); }
    if |a| == |b| && ContentOf(a[|a| - 1]) == ContentOf(b[|b| - 1]) { SameContentHash(a, b, |a| - 1, sha); }
  }

  lemma SameContentHash(a: seq<Link>, b: seq<Link>, k: nat, sha: Hasher)
    requires k < |a| && k < |b| && ContentOf(a[k]) == ContentOf(b[k]) && ProofHashesHold(a, sha) &&
      ProofHashesHold(b, sha)
    ensures a[k].proofHash == b[k].proofHash
  {
    hide Preimage, ContentOf;
    PreimageInjective(a[k], b[k]);
  }

  /** So an accepted capture admits no accepted alteration of anything a proof hash covers under the same hash. */
  lemma NoAlteration(a: seq<Link>, k: nat, p: Link, sha: Hasher, verifies: Verifier)
    requires CollisionFree(sha) && Accepts(a, sha, verifies) && k < |a|
    requires p.sequence == a[k].sequence && p.proofHash == a[k].proofHash && ContentOf(p) != ContentOf(a[k])
    ensures !Accepts(a[k := p], sha, verifies)
  {
    var b := a[k := p];
    if Accepts(b, sha, verifies) {
      var oa, ob := Ordered(a), Ordered(b);
      AcceptsParts(a, sha, verifies);
      AcceptsParts(b, sha, verifies);
      assert a[k] in a && b[k] in b && b[k] == p;
      hide *;
      var i := Standing(oa, a[k]);
      var j := Standing(ob, p);
      ChainsAgree(oa, ob, i, j, sha);
    }
  }

  // ------------------------------------------------------------------ what an accepted capture leaves open

  /** Alike in everything the verdict reads: what the hash covers, the hash, and which checked members are there. */
  predicate ReadsAlike(p: Link, q: Link) {
    && ContentOf(p) == ContentOf(q) && p.proofHash == q.proofHash
    && p.fromState == q.fromState && p.previousStateHash == q.previousStateHash
    && p.nextStateHash == q.nextStateHash && p.previousProofHash == q.previousProofHash
  }

  predicate SignedLink(p: Link, verifies: Verifier) {
    Or(p.signature) != [] && Or(p.signedBy) != [] && verifies(Or(p.signature), PROOF_TAG + p.proofHash, Or(p.signedBy))
  }

  /** Serving a changed link leaves it at its place in the chain. */
  lemma OrderedUpdate(a: seq<Link>, k: nat, p: Link) returns (i: nat)
    requires Contiguous(Ordered(a)) && k < |a| && p.sequence == a[k].sequence
    ensures i < |Ordered(a)| && Ordered(a)[i] == a[k] && Ordered(a[k := p]) == Ordered(a)[i := p]
  {
    var o, b := Ordered(a), a[k := p];
    SameMembers(a, o);
    assert a[k] in a;
    i := Standing(o, a[k]);
    UpdateMultiset(a, k, p);
    UpdateMultiset(o, i, p);
    SequenceOrder();
    SortSorts(b, BySequence);
    UpdatedSorted(o, i, p);
    hide Sort;
    SortedUnique(o[i := p], Ordered(b), BySequence);
  }

  lemma UpdatedSorted(o: seq<Link>, i: nat, p: Link)
    requires Contiguous(o) && i < |o| && p.sequence == o[i].sequence
    ensures Sorted(o[i := p], BySequence) && TieFree(o[i := p], BySequence)
  {
  }

  /**
   Whatever else a link carries can be changed and the capture stays accepted: its identifier, its signature for
   another that verifies, and an empty member for an absent one where no test looks for it.
   */
  lemma AcceptanceReads(a: seq<Link>, k: nat, p: Link, sha: Hasher, verifies: Verifier)
    requires Accepts(a, sha, verifies) && k < |a| && ReadsAlike(p, a[k]) && SchemaOk(p) && SignedLink(p, verifies)
    ensures Accepts(a[k := p], sha, verifies) && Newest(a[k := p]) == Newest(a)
  {
    AcceptsAll(a, sha, verifies);
    assert p.sequence == a[k].sequence by { AlikeFacts(p, a[k]); }
    SchemaKept(a, k, p);
    hide *;
    var i := OrderedUpdate(a, k, p);
    var o, b := Ordered(a), a[k := p];
    StructureKept(o, i, p);
    HashesKept(o, i, p, sha);
    SignaturesKept(o, i, p, verifies);
    AlikeFacts(p, a[k]);
    Accepted(b, sha, verifies);
    NewestKept(a, b, i, p);
  }

  lemma AcceptsAll(links: seq<Link>, sha: Hasher, verifies: Verifier)
    requires Accepts(links, sha, verifies)
    ensures var o := Ordered(links);
      && links != [] && |o| == |links| && (forall p :: p in links ==> SchemaOk(p))
      && Contiguous(o) && OneAgreement(o) && StatesLink(o) && HashesLink(o)
      && ProofHashesHold(o, sha) && StateHashesHold(o, sha) && Signed(o, verifies)
  {
    hide Contiguous, OneAgreement, StatesLink, HashesLink, ProofHashesHold, StateHashesHold, Signed, SchemaOk;
  }

  lemma Accepted(links: seq<Link>, sha: Hasher, verifies: Verifier)
    requires links != [] && forall p :: p in links ==> SchemaOk(p)
    requires var o := Ordered(links);
      && Contiguous(o) && OneAgreement(o) && StatesLink(o) && HashesLink(o)
      && ProofHashesHold(o, sha) && StateHashesHold(o, sha) && Signed(o, verifies)
    ensures Accepts(links, sha, verifies)
  {
    hide Contiguous, OneAgreement, StatesLink, HashesLink, ProofHashesHold, StateHashesHold, Signed, SchemaOk;
  }

  lemma SchemaKept(a: seq<Link>, k: nat, p: Link)
    requires k < |a| && SchemaOk(p) && forall q :: q in a ==> SchemaOk(q)
    ensures forall q :: q in a[k := p] ==> SchemaOk(q)
  {
    hide SchemaOk;
  }

  lemma NewestKept(a: seq<Link>, b: seq<Link>, i: nat, p: Link)
    requires a != [] && b != [] && i < |Ordered(a)| && Ordered(b) == Ordered(a)[i := p] &&
      p.proofHash == Ordered(a)[i].proofHash
    ensures Newest(b) == Newest(a)
  {
  }

  lemma StructureKept(o: seq<Link>, i: nat, p: Link)
    requires i < |o| && ReadsAlike(p, o[i]) && Contiguous(o) && OneAgreement(o) && StatesLink(o) && HashesLink(o)
    ensures var c := o[i := p]; Contiguous(c) && OneAgreement(c) && StatesLink(c) && HashesLink(c)
  {
    assert p.agreementId == o[i].agreementId && p.toState == o[i].toState && p.sequence == o[i].sequence;
    hide ContentOf;
  }

  lemma HashesKept(o: seq<Link>, i: nat, p: Link, sha: Hasher)
    requires i < |o| && ReadsAlike(p, o[i]) && ProofHashesHold(o, sha) && StateHashesHold(o, sha)
    ensures ProofHashesHold(o[i := p], sha) && StateHashesHold(o[i := p], sha)
  {
    AlikeFacts(p, o[i]);
    PreimageInjective(p, o[i]);
    hide ContentOf, Preimage, StateHash, ReadsAlike, Or;
    var c := o[i := p];
    forall k | 0 <= k < |c| ensures c[k].proofHash == sha(Preimage(c[k])) { assert k != i ==> c[k] == o[k]; }
    assert StateHashesHold(c, sha) by { StatesKept(o, i, p, sha); }
  }

  lemma AlikeFacts(p: Link, q: Link)
    requires ReadsAlike(p, q)
    ensures ContentOf(p) == ContentOf(q) && p.proofHash == q.proofHash
    ensures p.agreementId == q.agreementId && p.toState == q.toState && p.sequence == q.sequence
    ensures p.fromState == q.fromState && p.previousStateHash == q.previousStateHash
    ensures p.nextStateHash == q.nextStateHash
  {
  }

  lemma StatesKept(o: seq<Link>, i: nat, p: Link, sha: Hasher)
    requires i < |o| && StateHashesHold(o, sha)
    requires p.agreementId == o[i].agreementId && p.toState == o[i].toState && p.sequence == o[i].sequence
    requires p.fromState == o[i].fromState && p.previousStateHash == o[i].previousStateHash
    requires p.nextStateHash == o[i].nextStateHash
    ensures StateHashesHold(o[i := p], sha)
  {
    hide StateHash;
  }

  lemma SignaturesKept(o: seq<Link>, i: nat, p: Link, verifies: Verifier)
    requires i < |o| && SignedLink(p, verifies) && Signed(o, verifies)
    ensures Signed(o[i := p], verifies)
  {
  }

  /** In particular the proof's own identifier is not pinned: any capture stays accepted under any other. */
  lemma ProofIdIsFree(a: seq<Link>, k: nat, id: Option<Bytes>, sha: Hasher, verifies: Verifier)
    requires Accepts(a, sha, verifies) && k < |a|
    ensures Accepts(a[k := a[k].(proofId := id)], sha, verifies)
  {
    var p := a[k].(proofId := id);
    LinkIsSigned(a, k, sha, verifies);
    assert ReadsAlike(p, a[k]) by { OnlyProofId(a[k], id); }
    hide Accepts, ReadsAlike;
    AcceptanceReads(a, k, p, sha, verifies);
  }

  lemma OnlyProofId(q: Link, id: Option<Bytes>)
    ensures ReadsAlike(q.(proofId := id), q)
  {
    hide Or;
  }

  lemma LinkIsSigned(a: seq<Link>, k: nat, sha: Hasher, verifies: Verifier)
    requires Accepts(a, sha, verifies) && k < |a|
    ensures SchemaOk(a[k]) && SignedLink(a[k], verifies)
  {
    hide Contiguous, OneAgreement, StatesLink, HashesLink, ProofHashesHold, StateHashesHold, SchemaOk, Or;
    SameMembers(a, Ordered(a));
    assert a[k] in a && a[k] in Ordered(a);
  }
}
