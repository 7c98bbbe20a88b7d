/** How many rows each tract gets: a floor for every tract, the remainder dealt round-robin by rank. */
module Allocation {
  import opened Sorting
  import opened Canonical
  import opened Places

  datatype Result<+T> = Ok(value: T) | Err(error: Error)

  datatype Error =
    | FloorBelowOne | TooManyRows | FloorBroken | EmptySlice
    | Crash  // an unguarded read of an absent element

  const MAX_ROWS := 999_999

  // ------------------------------------------------------------------ the ranking

  datatype Entry = Entry(index: nat, pop: real, fips: Text)

  function EntryOf(tracts: seq<Tract>, i: nat): Entry
    requires i < |tracts|
  {
    Entry(i, OrElse(tracts[i].totalPop18plus, 0.0), tracts[i].tractFips)
  }

  function Entries(tracts: seq<Tract>): (r: seq<Entry>)
    ensures |r| == |tracts|
  {
    seq(|tracts|, i requires 0 <= i < |tracts| => EntryOf(tracts, i))
  }

  /** Descending adult population, then FIPS. */
  predicate Ahead(a: Entry, b: Entry) { a.pop > b.pop || (a.pop == b.pop && LexLe(a.fips, b.fips)) }

  function Ranking(tracts: seq<Tract>): (r: seq<Entry>)
    ensures |r| == |tracts|
  {
    Sort(Entries(tracts), Ahead)
  }

  lemma AheadOrder()
    ensures Order(Ahead)
  {
    LexOrder();
    forall a, b ensures Ahead(a, b) || Ahead(b, a) { LexTotal(a.fips, b.fips); }
    forall a, b, c | Ahead(a, b) && Ahead(b, c) ensures Ahead(a, c) {
      if a.pop == b.pop && b.pop == c.pop { LexTransitive(a.fips, b.fips, c.fips); }
    }
  }

  /** Every tract is ranked, once. */
  lemma RankingFacts(tracts: seq<Tract>)
    ensures var r := Ranking(tracts);
      && (forall k :: 0 <= k < |r| ==> r[k].index < |tracts| && r[k] == EntryOf(tracts, r[k].index))
      && (forall j, k :: 0 <= j < k < |r| ==> r[j].index != r[k].index)
      && (forall i :: 0 <= i < |tracts| ==> EntryOf(tracts, i) in r)
  {
    var es, r := Entries(tracts), Ranking(tracts);
    SameMembers(es, r);
    assert Distinct(es);
    DistinctRearranged(es, r);
    forall k | 0 <= k < |r| ensures r[k].index < |tracts| && r[k] == EntryOf(tracts, r[k].index) {
      assert r[k] in es;
    }
    forall i | 0 <= i < |tracts| ensures EntryOf(tracts, i) in r { assert es[i] in es; }
  }

  /** Where a tract stands in the ranking. */
  function Position(r: seq<Entry>, i: nat): (k: nat)
    ensures k <= |r|
    ensures k < |r| ==> r[k].index == i
    ensures forall j :: 0 <= j < k ==> r[j].index != i
  {
    if r == [] || r[0].index == i then 0 else 1 + Position(r[1..], i)
  }

  function Rank(tracts: seq<Tract>, i: nat): nat { Position(Ranking(tracts), i) }

  lemma RankFacts(tracts: seq<Tract>, i: nat)
    requires i < |tracts|
    ensures Rank(tracts, i) < |tracts| && Ranking(tracts)[Rank(tracts, i)] == EntryOf(tracts, i)
  {
    RankingFacts(tracts);
    var r := Ranking(tracts);
    var k :| 0 <= k < |r| && r[k] == EntryOf(tracts, i);
  }

  lemma RankOf(tracts: seq<Tract>, k: nat)
    requires k < |tracts|
    ensures Ranking(tracts)[k].index < |tracts| && Rank(tracts, Ranking(tracts)[k].index) == k
  {
    RankingFacts(tracts);
    var r := Ranking(tracts);
    RankFacts(tracts, r[k].index);
  }

  // ------------------------------------------------------------------ the shares

  /** Rows for tract `i` once `m` rows beyond the floor have been dealt. */
  function Share(tracts: seq<Tract>, floor: nat, m: nat, i: nat): nat
    requires tracts != []
  {
    floor + Rounds(m, |tracts|) + Extra(Rank(tracts, i), m, |tracts|)
  }

  function Rounds(m: nat, n: nat): nat
    requires n > 0
  {
    m / n
  }

  function Extra(rank: nat, m: nat, n: nat): nat
    requires n > 0
  {
    if rank < m % n then 1 else 0
  }

  function Shares(tracts: seq<Tract>, floor: nat, m: nat): (r: seq<nat>)
    ensures |r| == |tracts|
    ensures forall i :: 0 <= i < |r| ==> r[i] == Share(tracts, floor, m, i)
  {
    seq(|tracts|, i requires 0 <= i < |tracts| => Share(tracts, floor, m, i))
  }

  lemma NextDivMod(m: nat, n: nat)
    requires n > 0
    ensures if m % n == n - 1 then (m + 1) / n == m / n + 1 && (m + 1) % n == 0
            else (m + 1) / n == m / n && (m + 1) % n == m % n + 1
  {
    var q, r := m / n, m % n;
    assert m == n * q + r;
    if r == n - 1 {
      assert m + 1 == n * (q + 1);
      DivModUnique(m + 1, n, q + 1, 0);
    } else {
      DivModUnique(m + 1, n, q, r + 1);
    }
  }

  lemma DivModUnique(x: nat, n: nat, q: nat, r: nat)
    requires n > 0 && r < n && x == n * q + r
    ensures x / n == q && x % n == r
  {
    var q', r' := x / n, x % n;
    assert x == n * q' + r';
    if q' < q { Gap(n, q', q); }
    if q < q' { Gap(n, q, q'); }
  }

  lemma Gap(n: nat, a: nat, b: nat)
    requires a < b
    ensures n * b >= n * a + n
  {
    assert n * b == n * a + n * (b - a);
    assert b - a >= 1;
    assert n * (b - a) >= n by { if n > 0 { Scale(n, b - a); } }
  }

  lemma Scale(n: nat, d: nat)
    requires d >= 1
    ensures n * d >= n
  {
  }

  /** Dealing one more row raises exactly the tract whose turn it is. */
  lemma DealOne(tracts: seq<Tract>, floor: nat, m: nat)
    requires tracts != []
    ensures var turn := Ranking(tracts)[m % |tracts|].index;
      && turn < |tracts|
      && Shares(tracts, floor, m + 1) == Shares(tracts, floor, m)[turn := Shares(tracts, floor, m)[turn] + 1]
  {
    var n := |tracts|;
    var turn := Ranking(tracts)[m % n].index;
    RankOf(tracts, m % n);
    NextDivMod(m, n);
    var after, before := Shares(tracts, floor, m + 1), Shares(tracts, floor, m);
    forall i | 0 <= i < n ensures after[i] == if i == turn then before[i] + 1 else before[i] {
      RankFacts(tracts, i);
      if i != turn { assert Rank(tracts, i) != m % n; }
    }
  }

  function RowTotal(s: seq<nat>): nat { if s == [] then 0 else s[0] + RowTotal(s[1..]) }

  lemma {:induction false} TotalUpdate(s: seq<nat>, i: nat, x: nat)
    requires i < |s|
    ensures RowTotal(s[i := x]) == RowTotal(s) - s[i] + x
  {
    if i == 0 {
      assert s[i := x][1..] == s[1..];
    } else {
      assert s[i := x][1..] == s[1..][i - 1 := x];
      TotalUpdate(s[1..], i - 1, x);
    }
  }

  lemma {:induction false} TotalConstant(s: seq<nat>, c: nat)
    requires forall i :: 0 <= i < |s| ==> s[i] == c
    ensures RowTotal(s) == c * |s|
  {
    if s != [] { TotalConstant(s[1..], c); }
  }

  /** The shares use up exactly the rows: no row is lost or invented. */
  lemma {:induction false} SharesTotal(tracts: seq<Tract>, floor: nat, m: nat)
    requires tracts != []
    ensures RowTotal(Shares(tracts, floor, m)) == floor * |tracts| + m
  {
    hide Rank, Ranking;
    if m == 0 {
      StartShares(tracts, floor);
      TotalConstant(Shares(tracts, floor, m), floor);
    } else {
      SharesTotal(tracts, floor, m - 1);
      DealOne(tracts, floor, m - 1);
      var turn := Ranking(tracts)[(m - 1) % |tracts|].index;
      TotalUpdate(Shares(tracts, floor, m - 1), turn, Shares(tracts, floor, m - 1)[turn] + 1);
    }
  }

  // ------------------------------------------------------------------ the allocator

  /** What `allocateRows` answers. */
  function Allocate(tracts: seq<Tract>, rowsPerTract: int, total: int): Result<seq<nat>> {
    if rowsPerTract < 1 then Err(FloorBelowOne)
    else if total > MAX_ROWS then Err(TooManyRows)
    else if total < rowsPerTract * |tracts| then Err(FloorBroken)
    else if tracts == [] then (if total > 0 then Err(Crash) else Ok([]))
    else Ok(Shares(tracts, rowsPerTract, total - rowsPerTract * |tracts|))
  }

  /** Rows are granted exactly for a floor of at least one that the total covers, up to the most rows there are. */
  lemma AllocateOutcome(tracts: seq<Tract>, rowsPerTract: int, total: int)
    ensures Allocate(tracts, rowsPerTract, total).Ok? <==>
      1 <= rowsPerTract && rowsPerTract * |tracts| <= total <= 999_999 && (tracts == [] ==> total <= 0)
  {
    hide Shares;
  }

  /** The round-robin over the ranking, counting rows into the array one at a time. */
  method AllocateRows(tracts: seq<Tract>, rowsPerTract: int, totalRows: Option<int>) returns (r: Result<seq<nat>>)
    ensures r == Allocate(tracts, rowsPerTract, if totalRows.Some? then totalRows.value else rowsPerTract * |tracts|)
  {
    hide Shares, Ranking, Rank;
    if rowsPerTract < 1 { return Err(FloorBelowOne); }
    var total := if totalRows.Some? then totalRows.value else rowsPerTract * |tracts|;
    if total > MAX_ROWS { return Err(TooManyRows); }
    if total < rowsPerTract * |tracts| { return Err(FloorBroken); }
    var alloc := new nat[|tracts|](_ => rowsPerTract);
    var remainder := total - rowsPerTract * |tracts|;
    if remainder > 0 {
      var order := Ranking(tracts);
      if order == [] { return Err(Crash); }
      var k := 0;
      ghost var dealt := 0;
      StartShares(tracts, rowsPerTract);
      assert alloc[..] == Shares(tracts, rowsPerTract, 0);
      while remainder > 0
        invariant 0 <= remainder == total - rowsPerTract * |tracts| - dealt && 0 <= dealt
        invariant k == dealt % |tracts|
        invariant alloc[..] == Shares(tracts, rowsPerTract, dealt)
      {
        DealOne(tracts, rowsPerTract, dealt);
        NextDivMod(dealt, |tracts|);
        NextTurn(dealt, |tracts|);
        var index := order[k].index;
        alloc[index] := alloc[index] + 1;
        remainder := remainder - 1;
        k := (k + 1) % |order|;
        dealt := dealt + 1;
      }
    } else if tracts != [] {
      StartShares(tracts, rowsPerTract);
      assert alloc[..] == Shares(tracts, rowsPerTract, 0);
    }
    return Ok(alloc[..]);
  }

  lemma NextTurn(m: nat, n: nat)
    requires n > 0
    ensures (m % n + 1) % n == (m + 1) % n
  {
    NextDivMod(m, n);
    if m % n == n - 1 { assert n % n == 0; } else { DivModUnique(m % n + 1, n, 0, m % n + 1); }
  }

  lemma StartShares(tracts: seq<Tract>, floor: nat)
    requires tracts != []
    ensures forall i :: 0 <= i < |tracts| ==> Shares(tracts, floor, 0)[i] == floor
  {
  }

  /** A granted allocation sums to the rows asked for, gives every tract the floor, and is even to within one. */
  lemma AllocationFair(tracts: seq<Tract>, rowsPerTract: int, total: int, i: nat, j: nat)
    requires Allocate(tracts, rowsPerTract, total).Ok? && i < |tracts| && j < |tracts|
    ensures var a := Allocate(tracts, rowsPerTract, total).value;
      && |a| == |tracts| && RowTotal(a) == total
      && a[i] >= rowsPerTract
      && a[i] <= a[j] + 1
      && (OrElse(tracts[i].totalPop18plus, 0.0) > OrElse(tracts[j].totalPop18plus, 0.0) ==> a[i] >= a[j])
  {
    hide Allocate, Shares;
    GrantedShares(tracts, rowsPerTract, total);
    FairShares(tracts, rowsPerTract, total - rowsPerTract * |tracts|, i, j);
  }

  lemma FairShares(tracts: seq<Tract>, floor: nat, m: nat, i: nat, j: nat)
    requires i < |tracts| && j < |tracts|
    ensures var a := Shares(tracts, floor, m);
      && RowTotal(a) == floor * |tracts| + m
      && a[i] >= floor
      && a[i] <= a[j] + 1
      && (OrElse(tracts[i].totalPop18plus, 0.0) > OrElse(tracts[j].totalPop18plus, 0.0) ==> a[i] >= a[j])
  {
    SharesTotal(tracts, floor, m);
    hide RowTotal, Rank, Rounds;
    if OrElse(tracts[i].totalPop18plus, 0.0) > OrElse(tracts[j].totalPop18plus, 0.0) { LargerRanksFirst(tracts, i, j); }
  }

  lemma GrantedShares(tracts: seq<Tract>, rowsPerTract: int, total: int)
    requires Allocate(tracts, rowsPerTract, total).Ok? && tracts != []
    ensures rowsPerTract >= 1 && rowsPerTract * |tracts| <= total <= MAX_ROWS
    ensures Allocate(tracts, rowsPerTract, total) == Ok(Shares(tracts, rowsPerTract, total - rowsPerTract * |tracts|))
  {
  }

  lemma LargerRanksFirst(tracts: seq<Tract>, i: nat, j: nat)
    requires i < |tracts| && j < |tracts|
    requires OrElse(tracts[i].totalPop18plus, 0.0) > OrElse(tracts[j].totalPop18plus, 0.0)
    ensures Rank(tracts, i) < Rank(tracts, j)
  {
    RankFacts(tracts, i);
    RankFacts(tracts, j);
    AheadOrder();
    SortSorts(Entries(tracts), Ahead);
    var r, p, q := Ranking(tracts), Rank(tracts, i), Rank(tracts, j);
    assert q < p ==> Ahead(r[q], r[p]);
  }

  // ------------------------------------------------------------------ the order of the slice

  ghost predicate DistinctFips(tracts: seq<Tract>) {
    forall i, j :: 0 <= i < j < |tracts| ==> tracts[i].tractFips != tracts[j].tractFips
  }

  function KeyOf(t: Tract): Entry { Entry(0, OrElse(t.totalPop18plus, 0.0), t.tractFips) }

  function Keys(tracts: seq<Tract>): (r: seq<Entry>)
    ensures |r| == |tracts|
  {
    seq(|tracts|, i requires 0 <= i < |tracts| => KeyOf(tracts[i]))
  }

  function Forget(es: seq<Entry>): (r: seq<Entry>)
    ensures |r| == |es|
  {
    seq(|es|, i requires 0 <= i < |es| => es[i].(index := 0))
  }

  lemma {:induction false} ForgetInsert(x: Entry, s: seq<Entry>)
    ensures Forget(Insert(x, s, Ahead)) == Insert(x.(index := 0), Forget(s), Ahead)
  {
    var y, f := x.(index := 0), Forget(s);
    InsertStep(x, s);
    InsertStep(y, f);
    hide Insert, LexLe, Forget;
    ForgetFirst(x, s);
    if s != [] {
      ForgetHead(s);
      assert Ahead(x, s[0]) <==> Ahead(y, f[0]);
      if !Ahead(x, s[0]) {
        ForgetInsert(x, s[1..]);
        ForgetFirst(s[0], Insert(x, s[1..], Ahead));
      }
    }
  }

  lemma InsertStep(x: Entry, s: seq<Entry>)
    ensures s == [] || Ahead(x, s[0]) ==> Insert(x, s, Ahead) == [x] + s
    ensures s != [] && !Ahead(x, s[0]) ==> Insert(x, s, Ahead) == [s[0]] + Insert(x, s[1..], Ahead)
  {
  }

  lemma ForgetHead(s: seq<Entry>)
    requires s != []
    ensures Forget(s)[0] == s[0].(index := 0) && Forget(s)[1..] == Forget(s[1..])
  {
  }

  lemma ForgetFirst(x: Entry, s: seq<Entry>)
    ensures Forget([x] + s) == [x.(index := 0)] + Forget(s)
  {
  }

  /** Ranking looks at population and FIPS only, not at where the tract was listed. */
  lemma {:induction false} ForgetSort(s: seq<Entry>)
    ensures Forget(Sort(s, Ahead)) == Sort(Forget(s), Ahead)
  {
    if s != [] {
      ForgetSort(s[1..]);
      ForgetInsert(s[0], Sort(s[1..], Ahead));
      assert Forget(s)[1..] == Forget(s[1..]);
    }
  }

  lemma {:induction false} KeysPermutation(a: seq<Tract>, b: seq<Tract>)
    requires multiset(a) == multiset(b)
    ensures multiset(Keys(a)) == multiset(Keys(b))
  {
    SameMembers(a, b);
    if a != [] {
      var i := TakeOut(a, b);
      var k := |a| - 1;
      var rest := b[..i] + b[i + 1..];
      KeysPermutation(a[..k], rest);
      assert Keys(a) == Keys(a[..k]) + [KeyOf(a[k])];
      assert Keys(b) == Keys(b[..i]) + [KeyOf(a[k])] + Keys(b[i + 1..]);
      assert Keys(rest) == Keys(b[..i]) + Keys(b[i + 1..]);
    }
  }

  lemma KeysTieFree(a: seq<Tract>)
    requires DistinctFips(a)
    ensures TieFree(Keys(a), Ahead)
  {
    LexOrder();
  }

  /** The rank of a tract in a slice without repeated FIPS does not depend on how the slice is listed. */
  lemma RankPermutation(a: seq<Tract>, b: seq<Tract>, i: nat, j: nat)
    requires multiset(a) == multiset(b) && DistinctFips(a) && i < |a| && j < |b| && a[i] == b[j]
    ensures Rank(a, i) == Rank(b, j)
  {
    KeysRanked(a, i);
    KeysRanked(b, j);
    SortedKeysAgree(a, b);
  }

  /** The sorted keys, and a tract's rank among them, which is where its own key stands. */
  lemma KeysRanked(a: seq<Tract>, i: nat)
    requires i < |a|
    ensures Rank(a, i) < |a| && Sort(Keys(a), Ahead)[Rank(a, i)] == KeyOf(a[i])
  {
    hide Sort, Rank, Ahead, Keys, Entries;
    RankFacts(a, i);
    ForgetSort(Entries(a));
    KeysForget(a);
    assert Forget(Ranking(a))[Rank(a, i)] == EntryOf(a, i).(index := 0);
  }

  lemma KeysForget(a: seq<Tract>)
    ensures Forget(Entries(a)) == Keys(a)
  {
  }

  lemma SortedKeysAgree(a: seq<Tract>, b: seq<Tract>)
    requires multiset(a) == multiset(b) && DistinctFips(a)
    ensures Sort(Keys(a), Ahead) == Sort(Keys(b), Ahead) && Distinct(Sort(Keys(a), Ahead)) && |a| == |b|
  {
    AheadOrder();
    SameMembers(a, b);
    KeysPermutation(a, b);
    KeysTieFree(a);
    SortPermutation(Keys(a), Keys(b), Ahead);
    assert Distinct(Keys(a));
    DistinctRearranged(Keys(a), Sort(Keys(a), Ahead));
  }

  /** So reordering the slice reorders the allocation with it. */
  lemma AllocationFollowsReordering(a: seq<Tract>, b: seq<Tract>, rowsPerTract: int, total: int, i: nat, j: nat)
    requires multiset(a) == multiset(b) && DistinctFips(a) && i < |a| && j < |b| && a[i] == b[j]
    ensures Allocate(a, rowsPerTract, total).Ok? <==> Allocate(b, rowsPerTract, total).Ok?
    ensures Allocate(a, rowsPerTract, total).Ok? ==>
      Allocate(a, rowsPerTract, total).value[i] == Allocate(b, rowsPerTract, total).value[j]
  {
    hide Shares;
    SameMembers(a, b);
    var spare := total - rowsPerTract * |a|;
    if rowsPerTract >= 0 && spare >= 0 { SamePlace(a, b, rowsPerTract, spare, i, j); }
  }

  lemma SamePlace(a: seq<Tract>, b: seq<Tract>, floor: nat, m: nat, i: nat, j: nat)
    requires multiset(a) == multiset(b) && DistinctFips(a) && i < |a| && j < |b| && a[i] == b[j]
    ensures |a| == |b| && Shares(a, floor, m)[i] == Shares(b, floor, m)[j]
  {
    SameMembers(a, b);
    RankPermutation(a, b, i, j);
    hide Rank, Rounds, Extra;
  }
}
