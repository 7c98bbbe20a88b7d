/** The deliverable: synthetic rows drawn from the slice, and the file they are written to. */
module Synth {
  import opened Sorting
  import opened Decimal
  import opened Canonical
  import opened Places
  import opened Allocation
  import Settlement

  /** `uniform(seed, index, field)`: every draw is addressed, none depends on another. */
  type Draws = (Text, nat, Text) -> real

  const TRACT_FIELD := Settlement.Chars("tract")
  const AGE_FIELD := Settlement.Chars("age")
  const YOUNG := Settlement.Chars("18-34")
  const MIDDLE := Settlement.Chars("35-49")
  const OLDER := Settlement.Chars("50-64")
  const SENIOR := Settlement.Chars("65+")
  const SYN := Settlement.Chars("syn_")
  const TRUE_CELL := Settlement.Chars("true")

  // ------------------------------------------------------------------ weighted tract choice

  function Weight(t: Tract): (w: real)
    ensures w >= 0.0
  {
    if t.totalPop18plus.Some? && t.totalPop18plus.value > 0.0 then t.totalPop18plus.value else 0.0
  }

  /** Adult population of the first `k` tracts. */
  function Mass(tracts: seq<Tract>, k: nat): real
    requires k <= |tracts|
  {
    if k == 0 then 0.0 else Mass(tracts, k - 1) + Weight(tracts[k - 1])
  }

  function Cumulative(tracts: seq<Tract>): (r: seq<real>)
    ensures |r| == |tracts|
  {
    seq(|tracts|, i requires 0 <= i < |tracts| => Mass(tracts, i + 1))
  }

  method BuildSampler(tracts: seq<Tract>) returns (cumulative: seq<real>, totalWeight: real)
    ensures cumulative == Cumulative(tracts) && totalWeight == Mass(tracts, |tracts|)
  {
    cumulative := [];
    totalWeight := 0.0;
    for k := 0 to |tracts|
      invariant totalWeight == Mass(tracts, k)
      invariant cumulative == Cumulative(tracts)[..k]
    {
      totalWeight := totalWeight + Weight(tracts[k]);
      cumulative := cumulative + [totalWeight];
    }
  }

  /** The first tract whose cumulative weight exceeds the target, or the last. */
  function FirstAbove(cumulative: seq<real>, target: real, k: nat): (r: nat)
    requires k < |cumulative|
    ensures k <= r < |cumulative|
    ensures r < |cumulative| - 1 ==> cumulative[r] > target
    ensures forall j :: k <= j < r ==> cumulative[j] <= target
    decreases |cumulative| - k
  {
    if k == |cumulative| - 1 || cumulative[k] > target then k else FirstAbove(cumulative, target, k + 1)
  }

  function Target(u: real, total: real): real { u * total }

  function Picked(tracts: seq<Tract>, u: real): (p: nat)
    requires tracts != []
    ensures p < |tracts|
  {
    var total := Mass(tracts, |tracts|);
    if total <= 0.0 then 0 else FirstAbove(Cumulative(tracts), Target(u, total), 0)
  }

  lemma {:induction false} MassMonotone(tracts: seq<Tract>, j: nat, k: nat)
    requires j <= k <= |tracts|
    ensures Mass(tracts, j) <= Mass(tracts, k)
  {
    if j < k { MassMonotone(tracts, j, k - 1); }
  }

  lemma FirstAboveIs(cumulative: seq<real>, target: real, k: nat)
    requires k < |cumulative| && forall j :: 0 <= j < k ==> cumulative[j] <= target
    requires k < |cumulative| - 1 ==> cumulative[k] > target
    ensures FirstAbove(cumulative, target, 0) == k
  {
  }

  lemma CumulativeSorted(tracts: seq<Tract>)
    ensures forall j, k :: 0 <= j <= k < |tracts| ==> Cumulative(tracts)[j] <= Cumulative(tracts)[k]
    ensures tracts == [] ==> Mass(tracts, |tracts|) == 0.0
  {
    forall j, k | 0 <= j <= k < |tracts| ensures Cumulative(tracts)[j] <= Cumulative(tracts)[k] {
      MassMonotone(tracts, j + 1, k + 1);
    }
  }

  method PickTract(tracts: seq<Tract>, cumulative: seq<real>, totalWeight: real, u: real) returns (r: Result<nat>)
    requires cumulative == Cumulative(tracts) && totalWeight == Mass(tracts, |tracts|)
    ensures r == if tracts == [] then Err(EmptySlice) else Ok(Picked(tracts, u))
  {
    if totalWeight <= 0.0 {
      if tracts == [] { return Err(EmptySlice); }
      return Ok(0);
    }
    var target := Target(u, totalWeight);
    CumulativeSorted(tracts);
    hide Mass, Cumulative, Target, FirstAbove;
    var lo, hi := 0, |cumulative| - 1;
    while lo < hi
      invariant 0 <= lo <= hi < |cumulative|
      invariant forall j :: 0 <= j < lo ==> cumulative[j] <= target
      invariant hi < |cumulative| - 1 ==> cumulative[hi] > target
    {
      var mid := (lo + hi) / 2;
      if cumulative[mid] <= target {
        lo := mid + 1;
      } else {
        hi := mid;
      }
    }
    FirstAboveIs(cumulative, target, lo);
    return Ok(lo);
  }

  /**
   A draw picks tract `k` exactly when it falls in the stretch of the unit interval that is the tract's share
   of the adult population; a tract without adults is never picked.
   */
  lemma PickedShare(tracts: seq<Tract>, u: real, k: nat)
    requires k < |tracts| && 0.0 <= u < 1.0 && Mass(tracts, |tracts|) > 0.0
    ensures Picked(tracts, u) == k <==>
      Mass(tracts, k) <= Target(u, Mass(tracts, |tracts|)) < Mass(tracts, k) + Weight(tracts[k])
  {
    var total := Mass(tracts, |tracts|);
    var target := Target(u, total);
    Below(u, total);
    hide Target;
    var p := Picked(tracts, u);
    PickedBounds(tracts, target);
    if p < k { MassMonotone(tracts, p + 1, k); }
    if k < p { MassMonotone(tracts, k + 1, p); }
  }

  lemma PickedBounds(tracts: seq<Tract>, target: real)
    requires tracts != [] && 0.0 <= target < Mass(tracts, |tracts|)
    ensures var p := FirstAbove(Cumulative(tracts), target, 0); Mass(tracts, p) <= target < Mass(tracts, p + 1)
  {
    var c := Cumulative(tracts);
    var p := FirstAbove(c, target, 0);
    assert c[p] == Mass(tracts, p + 1);
    if p > 0 { assert c[p - 1] == Mass(tracts, p); }
  }

  lemma Below(u: real, total: real)
    requires 0.0 <= u < 1.0 && total > 0.0
    ensures 0.0 <= Target(u, total) < total
  {
    PositiveProduct(1.0 - u, total);
    if u > 0.0 { PositiveProduct(u, total); }
  }

  // ------------------------------------------------------------------ people

  datatype Person = Person(id: Text, fips: Text, county: Text, state: Text, ageBand: Text, flags: map<Text, nat>)

  const AGE_BANDS: seq<(Text, real)> := [(YOUNG, 0.3), (MIDDLE, 0.25), (OLDER, 0.25), (SENIOR, 0.2)]

  /** The weight of the first `k` bands. */
  function BandMass(k: nat): real
    requires k <= |AGE_BANDS|
  {
    if k == 0 then 0.0 else BandMass(k - 1) + AGE_BANDS[k - 1].1
  }

  /** The first band from the `k`-th on whose accumulated weight exceeds the draw, or the last. */
  function BandFrom(u: real, k: nat): Text
    requires k < |AGE_BANDS|
    decreases |AGE_BANDS| - k
  {
    if u < BandMass(k + 1) || k == |AGE_BANDS| - 1 then AGE_BANDS[k].0 else BandFrom(u, k + 1)
  }

  function AgeBand(u: real): Text { BandFrom(u, 0) }

  method PickAgeBand(u: real) returns (band: Text)
    ensures band == AgeBand(u)
  {
    var acc := 0.0;
    for k := 0 to |AGE_BANDS|
      invariant acc == BandMass(k)
      invariant k < |AGE_BANDS| ==> AgeBand(u) == BandFrom(u, k)
      invariant k == |AGE_BANDS| ==> AgeBand(u) == AGE_BANDS[k - 1].0
    {
      acc := acc + AGE_BANDS[k].1;
      if u < acc { return AGE_BANDS[k].0; }
    }
    return AGE_BANDS[|AGE_BANDS| - 1].0;
  }

  /** The bands part the unit interval by their weights, which add up to one: a draw is of a band in its stretch. */
  lemma AgeBandShare(u: real, k: nat)
    requires 0.0 <= u < 1.0 && k < |AGE_BANDS|
    ensures BandMass(|AGE_BANDS|) == 1.0
    ensures AgeBand(u) == AGE_BANDS[k].0 <==> BandMass(k) <= u < BandMass(k + 1)
  {
    assert BandMass(0) == 0.0 && BandMass(1) == 0.3 && BandMass(2) == 0.55 && BandMass(3) == 0.8 && BandMass(4) == 1.0;
    BandsDiffer();
    hide YOUNG, MIDDLE, OLDER, SENIOR, BandMass;
    assert BandFrom(u, 3) == SENIOR;
    assert BandFrom(u, 2) == if u < BandMass(3) then OLDER else SENIOR;
    assert BandFrom(u, 1) == if u < BandMass(2) then MIDDLE else BandFrom(u, 2);
  }

  lemma BandsDiffer()
    ensures YOUNG != MIDDLE && YOUNG != OLDER && YOUNG != SENIOR && MIDDLE != OLDER && MIDDLE != SENIOR
    ensures OLDER != SENIOR
  {
    assert YOUNG[0] == '1' as int && MIDDLE[0] == '3' as int && OLDER[0] == '5' as int && SENIOR[0] == '6' as int;
  }

  predicate MeasureApplies(c: Text, band: Text) { c == ACCESS2 ==> band == YOUNG || band == MIDDLE || band == OLDER }

  /** The published prevalence as a probability; nothing published is zero. */
  function Probability(t: Tract, c: Text): real {
    if c in t.values && t.values[c].Some? then t.values[c].value / 100.0 else 0.0
  }

  function Flag(draws: Draws, seed: Text, i: nat, t: Tract, band: Text, c: Text): nat {
    if !MeasureApplies(c, band) then 0 else if draws(seed, i, c) < Probability(t, c) then 1 else 0
  }

  function Flags(draws: Draws, seed: Text, i: nat, t: Tract, band: Text, columns: seq<Text>): map<Text, nat> {
    map c | c in columns :: Flag(draws, seed, i, t, band, c)
  }

  /** `syn_` and the row's ordinal, padded to six digits. */
  function RowId(i: nat): Text { SYN + Padded(i + 1) }

  function Padded(n: nat): (r: Text)
    ensures AllDigits(r)
  {
    var s := Print(n);
    if |s| < 6 then Settlement.Zeros(6 - |s|) + s else s
  }

  function PersonAt(draws: Draws, seed: Text, i: nat, t: Tract, columns: seq<Text>): Person {
    var band := AgeBand(draws(seed, i, AGE_FIELD));
    Person(RowId(i), t.tractFips, t.countyName, t.stateAbbr, band, Flags(draws, seed, i, t, band, columns))
  }

  // ------------------------------------------------------------------ which tract each row comes from

  function Repeat(x: nat, n: nat): (r: seq<nat>)
    ensures |r| == n
  {
    seq(n, i requires 0 <= i < n => x)
  }

  /** Tract indices, each as often as its allocation says. */
  function Runs(alloc: seq<nat>): (r: seq<nat>)
    ensures forall i :: 0 <= i < |r| ==> r[i] < |alloc|
  {
    if alloc == [] then []
    else Runs(alloc[..|alloc| - 1]) + Repeat(|alloc| - 1, alloc[|alloc| - 1])
  }

  lemma {:induction false} TotalConcat(a: seq<nat>, b: seq<nat>)
    ensures RowTotal(a + b) == RowTotal(a) + RowTotal(b)
  {
    if a == [] {
      assert a + b == b;
    } else {
      assert (a + b)[1..] == a[1..] + b;
      TotalConcat(a[1..], b);
    }
  }

  lemma {:induction false} RunsLength(alloc: seq<nat>)
    ensures |Runs(alloc)| == RowTotal(alloc)
  {
    if alloc != [] {
      var k := |alloc| - 1;
      RunsLength(alloc[..k]);
      TotalConcat(alloc[..k], [alloc[k]]);
      assert alloc == alloc[..k] + [alloc[k]];
      assert RowTotal([alloc[k]]) == alloc[k] by { assert [alloc[k]][1..] == []; }
    }
  }

  lemma {:induction false} RepeatCount(x: nat, n: nat, y: nat)
    ensures multiset(Repeat(x, n))[y] == if x == y then n else 0
  {
    if n > 0 {
      RepeatCount(x, n - 1, y);
      assert Repeat(x, n) == Repeat(x, n - 1) + [x];
    }
  }

  /** Each tract sources exactly its allocation of rows. */
  lemma {:induction false} RunsCount(alloc: seq<nat>, t: nat)
    requires t < |alloc|
    ensures multiset(Runs(alloc))[t] == alloc[t]
  {
    var k := |alloc| - 1;
    RepeatCount(k, alloc[k], t);
    if t < k {
      RunsCount(alloc[..k], t);
    } else {
      assert t !in Runs(alloc[..k]);
    }
  }

  /** The tract of each row: dealt when a floor was promised, drawn by population otherwise. */
  function Sources(
      draws: Draws, tracts: seq<Tract>, rowCount: int, rowsPerTract: Option<int>, seed: Text): (r: Result<seq<nat>>)
    requires tracts != []
    ensures r.Ok? ==> forall i :: 0 <= i < |r.value| ==> r.value[i] < |tracts|
  {
    match rowsPerTract
    case None =>
      Ok(Drawn(draws, tracts, if rowCount < 0 then 0 else rowCount, seed))
    case Some(floor) =>
      match Allocate(tracts, floor, rowCount)
      case Err(e) => Err(e)
      case Ok(alloc) => Ok(Runs(alloc))
  }

  function Drawn(draws: Draws, tracts: seq<Tract>, n: nat, seed: Text): (r: seq<nat>)
    requires tracts != []
    ensures |r| == n && forall i :: 0 <= i < n ==> r[i] == Picked(tracts, draws(seed, i, TRACT_FIELD)) < |tracts|
  {
    if n == 0 then [] else Drawn(draws, tracts, n - 1, seed) + [Picked(tracts, draws(seed, n - 1, TRACT_FIELD))]
  }

  function People(
      draws: Draws, tracts: seq<Tract>, rowCount: int, rowsPerTract: Option<int>, seed: Text,
      columns: seq<Text>): Result<seq<Person>>
  {
    if tracts == [] then Err(EmptySlice)
    else if rowCount > MAX_ROWS then Err(TooManyRows)
    else
      match Sources(draws, tracts, rowCount, rowsPerTract, seed)
      case Err(e) => Err(e)
      case Ok(sources) => Ok(PeopleFrom(draws, tracts, sources, seed, columns))
  }

  function PeopleFrom(
      draws: Draws, tracts: seq<Tract>, sources: seq<nat>, seed: Text, columns: seq<Text>): (r: seq<Person>)
    requires forall i :: 0 <= i < |sources| ==> sources[i] < |tracts|
    ensures |r| == |sources|
  {
    seq(|sources|, i requires 0 <= i < |sources| => PersonAt(draws, seed, i, tracts[sources[i]], columns))
  }

  lemma SourcesLength(draws: Draws, tracts: seq<Tract>, rowCount: int, rowsPerTract: Option<int>, seed: Text)
    requires tracts != [] && Sources(draws, tracts, rowCount, rowsPerTract, seed).Ok?
    ensures |Sources(draws, tracts, rowCount, rowsPerTract, seed).value| == if rowCount < 0 then 0 else rowCount
  {
    if rowsPerTract.Some? {
      var alloc := Allocate(tracts, rowsPerTract.value, rowCount).value;
      RunsLength(alloc);
      AllocationFair(tracts, rowsPerTract.value, rowCount, 0, 0);
    }
  }

  method Assign(tracts: seq<Tract>, alloc: seq<nat>) returns (rowTracts: seq<nat>)
    requires |alloc| == |tracts|
    ensures rowTracts == Runs(alloc)
  {
    rowTracts := [];
    for t := 0 to |alloc|
      invariant rowTracts == Runs(alloc[..t])
    {
      ghost var before := rowTracts;
      for r := 0 to alloc[t]
        invariant rowTracts == before + Repeat(t, r)
      {
        rowTracts := rowTracts + [t];
      }
      assert alloc[..t + 1][..t] == alloc[..t];
    }
    assert alloc[..|alloc|] == alloc;
  }

  /** The age first, then a flag for each column bought. */
  method GeneratePerson(draws: Draws, seed: Text, i: nat, t: Tract, columns: seq<Text>) returns (p: Person)
    ensures p == PersonAt(draws, seed, i, t, columns)
  {
    hide Flag, AgeBand;
    var ageBand := PickAgeBand(draws(seed, i, AGE_FIELD));
    var flags: map<Text, nat> := map[];
    for k := 0 to |columns|
      invariant flags == Flags(draws, seed, i, t, ageBand, columns[..k])
    {
      flags := flags[columns[k] := Flag(draws, seed, i, t, ageBand, columns[k])];
      assert columns[..k + 1] == columns[..k] + [columns[k]];
    }
    assert columns[..|columns|] == columns;
    return Person(RowId(i), t.tractFips, t.countyName, t.stateAbbr, ageBand, flags);
  }

  /** One row at a time; every draw is keyed by the global row index, so the source tract shifts no other draw. */
  method GenerateSyntheticPeople(
      draws: Draws, tracts: seq<Tract>, rowCount: int, rowsPerTract: Option<int>, seed: Text, columns: seq<Text>)
    returns (r: Result<seq<Person>>)
    ensures r == People(draws, tracts, rowCount, rowsPerTract, seed, columns)
  {
    hide Allocate, Runs, Picked, Drawn, PersonAt, PeopleFrom, RowTotal, Cumulative, Mass;
    if tracts == [] { return Err(EmptySlice); }
    if rowCount > MAX_ROWS { return Err(TooManyRows); }
    var cumulative, totalWeight := BuildSampler(tracts);
    var rowTracts: seq<nat> := [];
    if rowsPerTract.Some? {
      var granted := AllocateRows(tracts, rowsPerTract.value, Some(rowCount));
      if granted.Err? { return Err(granted.error); }
      AllocationFair(tracts, rowsPerTract.value, rowCount, 0, 0);
      rowTracts := Assign(tracts, granted.value);
    }
    SourcesLength(draws, tracts, rowCount, rowsPerTract, seed);
    PeopleOk(draws, tracts, rowCount, rowsPerTract, seed, columns);
    ghost var sources := Sources(draws, tracts, rowCount, rowsPerTract, seed).value;
    ghost var all := PeopleFrom(draws, tracts, sources, seed, columns);
    assert rowsPerTract.Some? ==> rowTracts == sources;
    var people: seq<Person> := [];
    var i := 0;
    hide *;
    while i < rowCount
      invariant 0 <= i && (i <= rowCount || (rowCount < 0 && i == 0))
      invariant people == all[..i]
    {
      var t;
      if rowsPerTract.None? {
        var pick := PickTract(tracts, cumulative, totalWeight, draws(seed, i, TRACT_FIELD));
        t := pick.value;
        SourceDrawn(draws, tracts, rowCount, seed, i);
      } else {
        t := rowTracts[i];
      }
      PeopleFromAt(draws, tracts, sources, seed, columns, i);
      var person := GeneratePerson(draws, seed, i, tracts[t], columns);
      people := people + [person];
      i := i + 1;
    }
    assert all[..|all|] == all;
    return Ok(people);
  }

  lemma SourceDrawn(draws: Draws, tracts: seq<Tract>, rowCount: int, seed: Text, i: nat)
    requires tracts != [] && i < rowCount
    ensures Sources(draws, tracts, rowCount, None, seed).Ok?
    ensures |Sources(draws, tracts, rowCount, None, seed).value| == rowCount
    ensures Sources(draws, tracts, rowCount, None, seed).value[i] == Picked(tracts, draws(seed, i, TRACT_FIELD))
  {
  }

  lemma PeopleFromAt(draws: Draws, tracts: seq<Tract>, sources: seq<nat>, seed: Text, columns: seq<Text>, i: nat)
    requires i < |sources| && forall k :: 0 <= k < |sources| ==> sources[k] < |tracts|
    ensures PeopleFrom(draws, tracts, sources, seed, columns)[i] == PersonAt(draws, seed, i, tracts[sources[i]],
      columns)
  {
  }

  lemma PeopleOk(
      draws: Draws, tracts: seq<Tract>, rowCount: int, rowsPerTract: Option<int>, seed: Text, columns: seq<Text>)
    requires tracts != [] && rowCount <= MAX_ROWS && Sources(draws, tracts, rowCount, rowsPerTract, seed).Ok?
    ensures People(draws, tracts, rowCount, rowsPerTract, seed, columns) ==
      Ok(PeopleFrom(draws, tracts, Sources(draws, tracts, rowCount, rowsPerTract, seed).value, seed, columns))
  {
  }

  /** People are generated exactly for a slice that is not empty and a row count within bounds that covers the floor. */
  lemma PeopleOutcome(
      draws: Draws, tracts: seq<Tract>, rowCount: int, rowsPerTract: Option<int>, seed: Text, columns: seq<Text>)
    ensures People(draws, tracts, rowCount, rowsPerTract, seed, columns).Ok? <==>
      && tracts != [] && rowCount <= 999_999
      && (rowsPerTract.Some? ==> 1 <= rowsPerTract.value && rowsPerTract.value * |tracts| <= rowCount)
  {
    if rowsPerTract.Some? { AllocateOutcome(tracts, rowsPerTract.value, rowCount); }
    hide Allocate, Runs, Drawn;
  }

  /** A promised floor is kept: every tract sources its share of exactly `rowCount` rows. */
  lemma FloorKept(draws: Draws, tracts: seq<Tract>, rowCount: int, floor: int, seed: Text, columns: seq<Text>, t: nat)
    requires People(draws, tracts, rowCount, Some(floor), seed, columns).Ok? && t < |tracts|
    ensures Sources(draws, tracts, rowCount, Some(floor), seed).Ok?
    ensures |People(draws, tracts, rowCount, Some(floor), seed, columns).value| == rowCount
    ensures multiset(Sources(draws, tracts, rowCount, Some(floor), seed).value)[t] >= floor
  {
    AllocationFair(tracts, floor, rowCount, t, t);
    var alloc := Allocate(tracts, floor, rowCount).value;
    RunsCount(alloc, t);
    RunsLength(alloc);
  }

  // ------------------------------------------------------------------ draws that do not disturb each other

  /** Rows that agree in everything but which measures they carry. */
  ghost predicate SameButColumns(p: Person, q: Person) {
    && p.id == q.id && p.fips == q.fips && p.county == q.county && p.state == q.state && p.ageBand == q.ageBand
    && forall x :: x in p.flags && x in q.flags ==> p.flags[x] == q.flags[x]
  }

  /**
   Every draw is independently addressable: buying other columns, in another order, moves no other value of any
   row, nor whether the file can be generated at all.
   */
  lemma ColumnsDoNotShift(
      draws: Draws, tracts: seq<Tract>, rowCount: int, rowsPerTract: Option<int>, seed: Text, c: seq<Text>,
        d: seq<Text>)
    ensures var p, q := People(draws, tracts, rowCount, rowsPerTract, seed, c), People(draws, tracts, rowCount,
      rowsPerTract, seed, d);
      && (p.Ok? <==> q.Ok?)
      && (p.Ok? ==> |p.value| == |q.value| && forall i :: 0 <= i < |p.value| ==> SameButColumns(p.value[i], q.value[i]))
  {
  }

  /** Dealing the tracts instead of drawing them changes no row's age. */
  lemma DealingKeepsAges(
      draws: Draws, tracts: seq<Tract>, rowCount: int, floor: int, seed: Text, columns: seq<Text>, i: nat)
    requires People(draws, tracts, rowCount, Some(floor), seed, columns).Ok? && i < rowCount
    ensures var p, q := People(draws, tracts, rowCount, Some(floor), seed, columns), People(draws, tracts,
      rowCount, None, seed, columns);
      && q.Ok? && |p.value| == |q.value| == rowCount
      && p.value[i].ageBand == q.value[i].ageBand && p.value[i].id == q.value[i].id
  {
    SourcesLength(draws, tracts, rowCount, Some(floor), seed);
    SourcesLength(draws, tracts, rowCount, None, seed);
    PeopleOk(draws, tracts, rowCount, Some(floor), seed, columns);
    PeopleOk(draws, tracts, rowCount, None, seed, columns);
  }

  /**
   With draws from the unit interval certain and impossible prevalences are certain and impossible, and insurance
   ends at 65.
   */
  lemma DefiniteFlags(draws: Draws, seed: Text, i: nat, t: Tract, columns: seq<Text>, x: Text)
    requires x in columns && 0.0 <= draws(seed, i, x) < 1.0
    ensures var p := PersonAt(draws, seed, i, t, columns);
      && x in p.flags && p.flags[x] <= 1
      && (x == ACCESS2 && p.ageBand == SENIOR ==> p.flags[x] == 0)
      && (Probability(t, x) <= 0.0 ==> p.flags[x] == 0)
      && (Probability(t, x) >= 1.0 && x != ACCESS2 ==> p.flags[x] == 1)
  {
    assert |SENIOR| == 3 && |YOUNG| == 5 && |MIDDLE| == 5 && |OLDER| == 5;
  }

  /** What a row says of a tract: its labels, and for each column bought a flag drawn against the prevalence. */
  ghost predicate RowOf(p: Person, draws: Draws, seed: Text, i: nat, t: Tract, columns: seq<Text>) {
    && p.fips == t.tractFips && p.county == t.countyName && p.state == t.stateAbbr
    && p.flags.Keys == (set c | c in columns)
    && forall c :: c in columns ==>
         && p.flags[c] <= 1
         && (p.flags[c] == 1 <==>
               && !(c == Settlement.Chars("ACCESS2") && p.ageBand == Settlement.Chars("65+"))
               && c in t.values && t.values[c].Some? && draws(seed, i, c) * 100.0 < t.values[c].value)
  }

  /**
   Every generated row is a row of one of the slice's tracts, the drawn one where no floor was promised: its age is
   that of the age draw, and a flag is set in exactly the published percentage of its own draws. Uninsurance is
   not drawn for the oldest, and nothing is for a value that is not published.
   */
  lemma GeneratedRow(
      draws: Draws, tracts: seq<Tract>, rowCount: int, rowsPerTract: Option<int>, seed: Text, columns: seq<Text>,
      i: nat)
    requires var r := People(draws, tracts, rowCount, rowsPerTract, seed, columns); r.Ok? && i < |r.value|
    requires forall c :: c in columns ==> 0.0 <= draws(seed, i, c) < 1.0
    ensures var p := People(draws, tracts, rowCount, rowsPerTract, seed, columns).value[i];
      && p.id == Settlement.Chars("syn_") + Padded(i + 1)
      && p.ageBand == AgeBand(draws(seed, i, Settlement.Chars("age")))
      && exists k: nat :: k < |tracts| && RowOf(p, draws, seed, i, tracts[k], columns) &&
           (rowsPerTract.None? ==> k == Picked(tracts, draws(seed, i, Settlement.Chars("tract"))))
  {
    PeopleOk(draws, tracts, rowCount, rowsPerTract, seed, columns);
    var sources := Sources(draws, tracts, rowCount, rowsPerTract, seed).value;
    PeopleFromAt(draws, tracts, sources, seed, columns, i);
    var k := sources[i];
    assert SYN == Settlement.Chars("syn_") && AGE_FIELD == Settlement.Chars("age");
    assert TRACT_FIELD == Settlement.Chars("tract");
    hide Allocate, Runs, Padded, AgeBand, RowOf, SYN, AGE_FIELD, TRACT_FIELD, Picked;
    PersonIsRow(draws, seed, i, tracts[k], columns);
    assert RowOf(People(draws, tracts, rowCount, rowsPerTract, seed, columns).value[i], draws, seed, i, tracts[k],
      columns);
  }

  lemma PersonIsRow(draws: Draws, seed: Text, i: nat, t: Tract, columns: seq<Text>)
    requires forall c :: c in columns ==> 0.0 <= draws(seed, i, c) < 1.0
    ensures RowOf(PersonAt(draws, seed, i, t, columns), draws, seed, i, t, columns)
  {
    var p := PersonAt(draws, seed, i, t, columns);
    BandAges(draws(seed, i, AGE_FIELD));
    assert ACCESS2 == Settlement.Chars("ACCESS2") && SENIOR == Settlement.Chars("65+");
    hide AgeBand, YOUNG, MIDDLE, OLDER, SENIOR, ACCESS2, AGE_FIELD, Settlement.Chars;
    forall c | c in columns
      ensures p.flags[c] == Flag(draws, seed, i, t, p.ageBand, c)
    {
    }
  }

  lemma BandAges(u: real)
    ensures AgeBand(u) in {YOUNG, MIDDLE, OLDER, SENIOR}
    ensures YOUNG != SENIOR && MIDDLE != SENIOR && OLDER != SENIOR
  {
    BandsDiffer();
    hide YOUNG, MIDDLE, OLDER, SENIOR;
    assert AGE_BANDS[0].0 == YOUNG && AGE_BANDS[1].0 == MIDDLE && AGE_BANDS[2].0 == OLDER && AGE_BANDS[3].0 == SENIOR;
    hide AGE_BANDS;
  }

  // ------------------------------------------------------------------ row ids

  /** The `w` low decimal digits. */
  function Fixed(n: nat, w: nat): (r: Text)
    ensures |r| == w
  {
    if w == 0 then [] else Fixed(n / 10, w - 1) + [Digit(n % 10)]
  }

  lemma {:induction false} FixedZeros(w: nat)
    ensures Fixed(0, w) == Settlement.Zeros(w)
  {
    if w > 0 {
      FixedZeros(w - 1);
      assert Settlement.Zeros(w) == Settlement.Zeros(w - 1) + ['0' as int];
    }
  }

  lemma {:induction false} FixedPads(n: nat, w: nat)
    requires n < Pow10(w) && w > 0
    ensures |Print(n)| <= w && Fixed(n, w) == Settlement.Zeros(w - |Print(n)|) + Print(n)
  {
    if n < 10 {
      FixedZeros(w - 1);
    } else {
      assert n / 10 < Pow10(w - 1);
      assert w > 1 by { assert Pow10(1) == 10 * Pow10(0); }
      FixedPads(n / 10, w - 1);
      assert Fixed(n, w) == Settlement.Zeros(w - |Print(n)|) + Print(n / 10) + [Digit(n % 10)];
    }
  }

  lemma {:induction false} LexAppend(a: Text, b: Text, c: Text, d: Text)
    requires |a| == |b|
    ensures LexLe(a + c, b + d) <==> (a != b && LexLe(a, b)) || (a == b && LexLe(c, d))
  {
    if a == [] {
      assert a + c == c && b + d == d;
    } else {
      assert (a + c)[1..] == a[1..] + c && (b + d)[1..] == b[1..] + d;
      LexAppend(a[1..], b[1..], c, d);
      assert a == [a[0]] + a[1..] && b == [b[0]] + b[1..];
    }
  }

  /** Among numbers of at most `w` digits the fixed-width spelling sorts as the numbers do. */
  lemma {:induction false} FixedOrder(m: nat, n: nat, w: nat)
    requires m < Pow10(w) && n < Pow10(w)
    ensures LexLe(Fixed(m, w), Fixed(n, w)) <==> m <= n
    ensures Fixed(m, w) == Fixed(n, w) <==> m == n
  {
    if w > 0 {
      assert m / 10 < Pow10(w - 1) && n / 10 < Pow10(w - 1);
      FixedOrder(m / 10, n / 10, w - 1);
      var a, b, c, d := Fixed(m / 10, w - 1), Fixed(n / 10, w - 1), [Digit(m % 10)], [Digit(n % 10)];
      LexAppend(a, b, c, d);
      assert LexLe(c, d) <==> m % 10 <= n % 10 by { assert c[1..] == [] && d[1..] == []; }
      assert Fixed(m, w)[..w - 1] == a && Fixed(n, w)[..w - 1] == b;
      assert Fixed(m, w)[w - 1] == c[0] && Fixed(n, w)[w - 1] == d[0];
    }
  }

  lemma Million()
    ensures Pow10(6) == 1_000_000
  {
    assert Pow10(2) == 10 * Pow10(1) && Pow10(4) == 10 * Pow10(3) && Pow10(5) == 10 * Pow10(4);
  }

  /** Up to the limit the row ids are distinct and sort as text the way the rows are numbered. */
  lemma RowIdsSort(i: nat, j: nat)
    requires i < MAX_ROWS && j < MAX_ROWS
    ensures LexLe(RowId(i), RowId(j)) <==> i <= j
    ensures RowId(i) == RowId(j) <==> i == j
  {
    Million();
    FixedPads(i + 1, 6);
    FixedPads(j + 1, 6);
    FixedOrder(i + 1, j + 1, 6);
    assert Padded(i + 1) == Fixed(i + 1, 6) by { PaddedFixed(i + 1); }
    assert Padded(j + 1) == Fixed(j + 1, 6) by { PaddedFixed(j + 1); }
    LexAppend(SYN, SYN, Padded(i + 1), Padded(j + 1));
    assert RowId(i)[|SYN|..] == Padded(i + 1) && RowId(j)[|SYN|..] == Padded(j + 1);
  }

  lemma PaddedFixed(n: nat)
    requires n < Pow10(6)
    ensures Padded(n) == Fixed(n, 6)
  {
    FixedPads(n, 6);
    var s := Print(n);
    if |s| == 6 { assert Settlement.Zeros(0) + s == s; }
  }

  /** One row beyond the limit, the ids stop sorting: the limit is exact. */
  lemma RowIdsStopSorting()
    ensures !LexLe(RowId(MAX_ROWS - 1), RowId(MAX_ROWS))
  {
    Million();
    PaddedFixed(MAX_ROWS);
    SevenDigits();
    NoLeadingZero(MAX_ROWS / 100_000);
    LexAppend(SYN, SYN, Padded(MAX_ROWS), Padded(MAX_ROWS + 1));
    NinesFirst();
  }

  lemma SevenDigits()
    ensures |Padded(1_000_000)| == 7 && Padded(1_000_000)[0] == '1' as int
  {
    assert Print(1) == [Digit(1)];
    assert Print(10) == Print(1) + [Digit(0)];
    assert Print(100) == Print(10) + [Digit(0)];
    assert Print(1000) == Print(100) + [Digit(0)];
    assert Print(10000) == Print(1000) + [Digit(0)];
    assert Print(100000) == Print(10000) + [Digit(0)];
    assert Print(1000000) == Print(100000) + [Digit(0)];
  }

  lemma NinesFirst()
    ensures Fixed(999_999, 6)[0] == '9' as int
  {
    assert Fixed(999_999, 6) == Fixed(99_999, 5) + [Digit(9)];
    assert Fixed(99_999, 5) == Fixed(9_999, 4) + [Digit(9)];
    assert Fixed(9_999, 4) == Fixed(999, 3) + [Digit(9)];
    assert Fixed(999, 3) == Fixed(99, 2) + [Digit(9)];
    assert Fixed(99, 2) == Fixed(9, 1) + [Digit(9)];
    assert Fixed(9, 1) == Fixed(0, 0) + [Digit(9)];
  }
}
