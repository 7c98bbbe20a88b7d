/**
 The corpus queries: which tracts match, what is charged, the aggregate statistics, and the commitment
 over them. Prevalences and populations are reals; an absent key is `undefined`, `None` is a suppression.
 */
module Places {
  import opened Sorting
  import opened Canonical
  import Settlement

  datatype Tract = Tract(
    stateAbbr: Text, stateDesc: Text, countyName: Text, countyFips: Text, tractFips: Text,
    totalPopulation: Option<real>, totalPop18plus: Option<real>, values: map<Text, Option<real>>)

  datatype Threshold = Threshold(min: Option<real>, max: Option<real>)

  /** Absent filters are empty; `thresholds` lists the members of an object in their own order. */
  datatype Query = Query(
    columns: seq<Text>, states: seq<Text>, counties: seq<Text>, minPopulation: Option<real>,
    thresholds: seq<(Text, Threshold)>)

  datatype Corpus = Corpus(tracts: seq<Tract>, unavailable: map<Text, seq<Text>>)

  /** The eight measures sold. */
  const DIABETES := Settlement.Chars("DIABETES")
  const BPHIGH := Settlement.Chars("BPHIGH")
  const CHD := Settlement.Chars("CHD")
  const DEPRESSION := Settlement.Chars("DEPRESSION")
  const OBESITY := Settlement.Chars("OBESITY")
  const CSMOKING := Settlement.Chars("CSMOKING")
  const ACCESS2 := Settlement.Chars("ACCESS2")
  const SLEEP := Settlement.Chars("SLEEP")

  // ------------------------------------------------------------------ matching

  predicate Suppressed(t: Tract, c: Text) { c in t.values && t.values[c].None? }

  /** An undefined value fails no comparison; a suppressed one fails every threshold. */
  predicate WithinThreshold(t: Tract, key: Text, th: Threshold) {
    key in t.values ==>
      && t.values[key].Some?
      && (th.min.Some? ==> th.min.value <= t.values[key].value)
      && (th.max.Some? ==> t.values[key].value <= th.max.value)
  }

  function OrElse(o: Option<real>, d: real): real { if o.Some? then o.value else d }

  /** A tract is in the slice when every filter passes and every purchased measure is published. */
  predicate Matches(q: Query, t: Tract) {
    && (q.states != [] ==> t.stateAbbr in q.states)
    && (q.counties != [] ==> t.countyName in q.counties)
    && (q.minPopulation.Some? ==> q.minPopulation.value <= OrElse(t.totalPopulation, -1.0))
    && (forall c :: c in q.columns ==> !Suppressed(t, c))
    && (forall i :: 0 <= i < |q.thresholds| ==> WithinThreshold(t, q.thresholds[i].0, q.thresholds[i].1))
  }

  function Slice(q: Query, tracts: seq<Tract>): seq<Tract> {
    if tracts == [] then []
    else (if Matches(q, tracts[0]) then [tracts[0]] else []) + Slice(q, tracts[1..])
  }

  lemma {:induction false} SliceConcat(q: Query, a: seq<Tract>, b: seq<Tract>)
    ensures Slice(q, a + b) == Slice(q, a) + Slice(q, b)
  {
    if a == [] {
      assert a + b == b;
    } else {
      assert (a + b)[1..] == a[1..] + b;
      SliceConcat(q, a[1..], b);
    }
  }

  lemma SliceSnoc(q: Query, a: seq<Tract>, t: Tract)
    ensures Slice(q, a + [t]) == Slice(q, a) + (if Matches(q, t) then [t] else [])
  {
    SliceConcat(q, a, [t]);
    assert [t][1..] == [];
  }

  predicate HasGap(corpus: Corpus, columns: seq<Text>, st: Text) {
    exists i :: 0 <= i < |columns| && columns[i] in corpus.unavailable && st in corpus.unavailable[columns[i]]
  }

  /** The matching tracts in corpus order, and each queried state some purchased measure is suppressed in. */
  method EvaluateQuery(q: Query, corpus: Corpus) returns (out: seq<Tract>, zeroYield: seq<Text>)
    ensures out == Slice(q, corpus.tracts)
    ensures forall st :: st in zeroYield <==> st in q.states && HasGap(corpus, q.columns, st)
    ensures forall i, j :: 0 <= i < j < |zeroYield| ==> zeroYield[i] != zeroYield[j]
  {
    out := [];
    for k := 0 to |corpus.tracts|
      invariant out == Slice(q, corpus.tracts[..k])
    {
      var t := corpus.tracts[k];
      var ok := Survives(q, t);
      SliceSnoc(q, corpus.tracts[..k], t);
      assert corpus.tracts[..k + 1] == corpus.tracts[..k] + [t];
      if ok { out := out + [t]; }
    }
    assert corpus.tracts[..|corpus.tracts|] == corpus.tracts;
    zeroYield := [];
    for s := 0 to |q.states|
      invariant forall st :: st in zeroYield <==> st in q.states[..s] && HasGap(corpus, q.columns, st)
      invariant forall i, j :: 0 <= i < j < |zeroYield| ==> zeroYield[i] != zeroYield[j]
    {
      var st := q.states[s];
      ghost var before := zeroYield;
      for i := 0 to |q.columns|
        invariant zeroYield == before || (zeroYield == before + [st] && st !in before)
        invariant st in zeroYield <==> st in before || HasGap(corpus, q.columns[..i], st)
      {
        var c := q.columns[i];
        GapSnoc(corpus, q.columns, i, st);
        if c in corpus.unavailable && st in corpus.unavailable[c] && st !in zeroYield {
          zeroYield := zeroYield + [st];
        }
      }
      assert q.columns[..|q.columns|] == q.columns;
      assert q.states[..s + 1] == q.states[..s] + [st];
    }
    assert q.states[..|q.states|] == q.states;
  }

  lemma GapSnoc(corpus: Corpus, columns: seq<Text>, i: nat, st: Text)
    requires i < |columns|
    ensures HasGap(corpus, columns[..i + 1], st) <==>
            HasGap(corpus, columns[..i], st) || (columns[i] in corpus.unavailable &&
              st in corpus.unavailable[columns[i]])
  {
    if HasGap(corpus, columns[..i], st) {
      var k :| 0 <= k < i && columns[..i][k] in corpus.unavailable && st in corpus.unavailable[columns[..i][k]];
      assert columns[..i + 1][k] == columns[k];
    }
    if columns[i] in corpus.unavailable && st in corpus.unavailable[columns[i]] {
      assert columns[..i + 1][i] == columns[i];
    }
    if HasGap(corpus, columns[..i + 1], st) {
      var k :| 0 <= k < i + 1 && columns[..i + 1][k] in corpus.unavailable &&
        st in corpus.unavailable[columns[..i + 1][k]];
      if k < i { assert columns[..i][k] == columns[k]; }
    }
  }

  /** The filters in the order they are tried, each loop leaving at its first failure. */
  method Survives(q: Query, t: Tract) returns (ok: bool)
    ensures ok <==> Matches(q, t)
  {
    if q.states != [] && t.stateAbbr !in q.states { return false; }
    if q.counties != [] && t.countyName !in q.counties { return false; }
    if q.minPopulation.Some? && OrElse(t.totalPopulation, -1.0) < q.minPopulation.value { return false; }
    for i := 0 to |q.columns|
      invariant forall k :: 0 <= k < i ==> !Suppressed(t, q.columns[k])
    {
      if Suppressed(t, q.columns[i]) {
        return false;
      }
    }
    for i := 0 to |q.thresholds|
      invariant forall k :: 0 <= k < i ==> WithinThreshold(t, q.thresholds[k].0, q.thresholds[k].1)
    {
      if !WithinThreshold(t, q.thresholds[i].0, q.thresholds[i].1) {
        return false;
      }
    }
    return true;
  }

  lemma {:induction false} SliceMultiset(q: Query, tracts: seq<Tract>, t: Tract)
    ensures multiset(Slice(q, tracts))[t] == if Matches(q, t) then multiset(tracts)[t] else 0
  {
    if tracts != [] {
      SliceMultiset(q, tracts[1..], t);
      assert tracts == [tracts[0]] + tracts[1..];
    }
  }

  /** Reordering the corpus reorders the slice. */
  lemma SlicePermutation(q: Query, a: seq<Tract>, b: seq<Tract>)
    requires multiset(a) == multiset(b)
    ensures multiset(Slice(q, a)) == multiset(Slice(q, b))
  {
    forall t ensures multiset(Slice(q, a))[t] == multiset(Slice(q, b))[t] {
      SliceMultiset(q, a, t);
      SliceMultiset(q, b, t);
    }
  }

  /** The second query asks for at least what the first asks for. */
  ghost predicate AsStrict(q: Query, r: Query) {
    && (q.states != [] ==> r.states != [] && forall s :: s in r.states ==> s in q.states)
    && (q.counties != [] ==> r.counties != [] && forall c :: c in r.counties ==> c in q.counties)
    && (q.minPopulation.Some? ==> r.minPopulation.Some? && r.minPopulation.value >= q.minPopulation.value)
    && (forall c :: c in q.columns ==> c in r.columns)
    && (forall i :: 0 <= i < |q.thresholds| ==> Tightened(q.thresholds[i], r))
  }

  ghost predicate Tightened(th: (Text, Threshold), r: Query) {
    exists j :: 0 <= j < |r.thresholds| && r.thresholds[j].0 == th.0 && Within(r.thresholds[j].1, th.1)
  }

  /** The interval lies within the other. */
  predicate Within(th: Threshold, wider: Threshold) {
    && (wider.min.Some? ==> th.min.Some? && th.min.value >= wider.min.value)
    && (wider.max.Some? ==> th.max.Some? && th.max.value <= wider.max.value)
  }

  /** Asking for more selects, in order, from what asking for less selected. */
  lemma {:induction false} StricterSelectsLess(q: Query, r: Query, tracts: seq<Tract>)
    requires AsStrict(q, r)
    ensures Slice(r, tracts) == Slice(r, Slice(q, tracts))
  {
    if tracts != [] {
      StricterSelectsLess(q, r, tracts[1..]);
      if Matches(r, tracts[0]) { StricterMatch(q, r, tracts[0]); }
      hide Matches, AsStrict;
      var rest := Slice(q, tracts[1..]);
      assert ([tracts[0]] + rest)[1..] == rest;
      assert [] + rest == rest;
    }
  }

  lemma StricterMatch(q: Query, r: Query, t: Tract)
    requires AsStrict(q, r) && Matches(r, t)
    ensures Matches(q, t)
  {
    forall i | 0 <= i < |q.thresholds| ensures WithinThreshold(t, q.thresholds[i].0, q.thresholds[i].1) {
      assert Tightened(q.thresholds[i], r);
      var j :| 0 <= j < |r.thresholds| && r.thresholds[j].0 == q.thresholds[i].0 &&
        Within(r.thresholds[j].1, q.thresholds[i].1);
      assert WithinThreshold(t, r.thresholds[j].0, r.thresholds[j].1);
    }
  }

  /** A tract's own facts as a query: its state, its county, just its population and just its values. */
  function OwnFacts(t: Tract, columns: seq<Text>): Query {
    Query(columns, [t.stateAbbr], [t.countyName], t.totalPopulation,
      seq(|columns|, i requires 0 <= i < |columns| =>
        (columns[i],
         if columns[i] in t.values then Threshold(t.values[columns[i]], t.values[columns[i]])
         else Threshold(None, None))))
  }

  /**
   Every bound is inclusive: a tract matches the query of its own facts exactly when no purchased measure is
   suppressed for it; and a tract that differs from it in state, county or a published value does not.
   */
  lemma OwnFactsMatch(t: Tract, u: Tract, columns: seq<Text>)
    ensures Matches(OwnFacts(t, columns), t) <==> forall c :: c in columns && c in t.values ==> t.values[c].Some?
    ensures Matches(OwnFacts(t, columns), u) ==>
      && u.stateAbbr == t.stateAbbr && u.countyName == t.countyName
      && (t.totalPopulation.Some? ==> OrElse(u.totalPopulation, -1.0) >= t.totalPopulation.value)
      && forall c :: c in columns && c in t.values && c in u.values && t.values[c].Some? ==> u.values[c] == t.values[c]
  {
    var q := OwnFacts(t, columns);
    assert |q.thresholds| == |columns|;
    assert forall i :: 0 <= i < |columns| ==> q.thresholds[i].0 == columns[i];
    if Matches(q, u) {
      forall c | c in columns && c in t.values && c in u.values && t.values[c].Some?
        ensures u.values[c] == t.values[c]
      {
        var i :| 0 <= i < |columns| && columns[i] == c;
        assert WithinThreshold(u, q.thresholds[i].0, q.thresholds[i].1);
      }
    }
  }

  // ------------------------------------------------------------------ statistics

  function Sum(s: seq<real>): real {
    if s == [] then 0.0 else Sum(s[..|s| - 1]) + s[|s| - 1]
  }

  predicate RealLe(a: real, b: real) { a <= b }

  lemma RealOrder()
    ensures Order(RealLe)
  {
  }

  /** `Number(x.toFixed(4))`: four decimals, halves away from zero. */
  function ToFixed4(x: real): real {
    if x < 0.0 then -((-x * 10000.0 + 0.5).Floor as real / 10000.0)
    else (x * 10000.0 + 0.5).Floor as real / 10000.0
  }

  datatype MeasureStats = MeasureStats(min: real, max: real, mean: real, median: real, n: nat)

  datatype AggregateStats = AggregateStats(
    tractCount: nat, totalPopulation: real, totalPop18plus: real, perMeasure: seq<(Text, MeasureStats)>)

  function Published(tracts: seq<Tract>, c: Text): seq<real> {
    if tracts == [] then []
    else
      var t := tracts[|tracts| - 1];
      var before := Published(tracts[..|tracts| - 1], c);
      if c in t.values && t.values[c].Some? then before + [t.values[c].value] else before
  }

  function Populations(tracts: seq<Tract>): seq<real> {
    seq(|tracts|, i requires 0 <= i < |tracts| => OrElse(tracts[i].totalPopulation, 0.0))
  }

  function Adults(tracts: seq<Tract>): seq<real> {
    seq(|tracts|, i requires 0 <= i < |tracts| => OrElse(tracts[i].totalPop18plus, 0.0))
  }

  /** The figures over a sorted, possibly empty, list of values. */
  function Figures(vals: seq<real>): MeasureStats {
    var n := |vals|;
    if n == 0 then MeasureStats(0.0, 0.0, 0.0, 0.0, 0)
    else
      MeasureStats(vals[0], vals[n - 1], ToFixed4(Sum(vals) / n as real),
        if n % 2 == 1 then vals[n / 2] else ToFixed4((vals[n / 2 - 1] + vals[n / 2]) / 2.0), n)
  }

  function StatsFor(tracts: seq<Tract>, c: Text): MeasureStats { Figures(Sort(Published(tracts, c), RealLe)) }

  /** A property per distinct column, in order of first mention: what assigning `perMeasure[c]` builds. */
  function PerMeasure(tracts: seq<Tract>, columns: seq<Text>): (r: seq<(Text, MeasureStats)>) {
    if columns == [] then []
    else
      var k := |columns| - 1;
      var r := PerMeasure(tracts, columns[..k]);
      if columns[k] in columns[..k] then r else r + [(columns[k], StatsFor(tracts, columns[k]))]
  }

  /** Exactly one property per column asked for, holding that column's figures. */
  lemma {:induction false} PerMeasureFacts(tracts: seq<Tract>, columns: seq<Text>)
    ensures var r := PerMeasure(tracts, columns);
      && (forall p :: p in r <==> p.0 in columns && p.1 == StatsFor(tracts, p.0))
      && (forall i, j :: 0 <= i < j < |r| ==> r[i].0 != r[j].0)
  {
    if columns != [] {
      var k := |columns| - 1;
      PerMeasureFacts(tracts, columns[..k]);
      hide StatsFor;
      assert columns == columns[..k] + [columns[k]];
      var before := PerMeasure(tracts, columns[..k]);
      forall i | 0 <= i < |before| ensures before[i].0 in columns[..k] { assert before[i] in before; }
    }
  }

  function Stats(tracts: seq<Tract>, columns: seq<Text>): AggregateStats {
    AggregateStats(|tracts|, Sum(Populations(tracts)), Sum(Adults(tracts)), PerMeasure(tracts, columns))
  }

  lemma NoTotals(matched: seq<Tract>, columns: seq<Text>)
    ensures Sum(Populations(matched[..0])) == Sum(Adults(matched[..0])) == 0.0
    ensures PerMeasure(matched, columns[..0]) == []
  {
  }

  lemma TotalsNext(matched: seq<Tract>, i: nat)
    requires i < |matched|
    ensures Sum(Populations(matched[..i + 1])) ==
      Sum(Populations(matched[..i])) + OrElse(matched[i].totalPopulation, 0.0)
    ensures Sum(Adults(matched[..i + 1])) == Sum(Adults(matched[..i])) + OrElse(matched[i].totalPop18plus, 0.0)
  {
    assert Populations(matched[..i + 1])[..i] == Populations(matched[..i]);
    assert Adults(matched[..i + 1])[..i] == Adults(matched[..i]);
  }

  lemma PerMeasureNext(tracts: seq<Tract>, columns: seq<Text>, k: nat)
    requires k < |columns|
    ensures PerMeasure(tracts, columns[..k + 1]) ==
      var before := PerMeasure(tracts, columns[..k]);
      if columns[k] in columns[..k] then before else before + [(columns[k], StatsFor(tracts, columns[k]))]
  {
    assert columns[..k + 1][..k] == columns[..k];
  }

  /** The totals are accumulated in one pass, the figures column by column. */
  method AggregateMatched(matched: seq<Tract>, columns: seq<Text>) returns (stats: AggregateStats)
    ensures stats == Stats(matched, columns)
  {
    var pop, pop18 := 0.0, 0.0;
    hide Sum, Populations, Adults, StatsFor, PerMeasure, OrElse;
    NoTotals(matched, columns);
    for i := 0 to |matched|
      invariant pop == Sum(Populations(matched[..i])) && pop18 == Sum(Adults(matched[..i]))
    {
      TotalsNext(matched, i);
      pop := pop + OrElse(matched[i].totalPopulation, 0.0);
      pop18 := pop18 + OrElse(matched[i].totalPop18plus, 0.0);
    }
    assert matched[..|matched|] == matched;
    var perMeasure: seq<(Text, MeasureStats)> := [];
    for k := 0 to |columns|
      invariant perMeasure == PerMeasure(matched, columns[..k])
    {
      PerMeasureNext(matched, columns, k);
      if columns[k] !in columns[..k] {
        perMeasure := perMeasure + [(columns[k], StatsFor(matched, columns[k]))];
      }
    }
    assert columns[..|columns|] == columns;
    stats := AggregateStats(|matched|, pop, pop18, perMeasure);
  }

  // ------------------------------------------------------------------ the order of tracts and columns

  lemma {:induction false} SumConcat(a: seq<real>, b: seq<real>)
    ensures Sum(a + b) == Sum(a) + Sum(b)
  {
    if b == [] {
      assert a + b == a;
    } else {
      assert (a + b)[..|a + b| - 1] == a + b[..|b| - 1];
      SumConcat(a, b[..|b| - 1]);
    }
  }

  lemma {:induction false} SumPermutation(a: seq<real>, b: seq<real>)
    requires multiset(a) == multiset(b)
    ensures Sum(a) == Sum(b)
  {
    SameMembers(a, b);
    if a != [] {
      var i := TakeOut(a, b);
      var k := |a| - 1;
      var x, rest := a[k], b[..i] + b[i + 1..];
      SumPermutation(a[..k], rest);
      SumConcat(b[..i], [x] + b[i + 1..]);
      SumConcat([x], b[i + 1..]);
      SumConcat(b[..i], b[i + 1..]);
      assert Sum([x]) == x by { assert [x][..0] == []; }
    }
  }

  /** A per-tract reading, taken over a slice. */
  function Readings(tracts: seq<Tract>, f: Tract -> real): seq<real> {
    seq(|tracts|, i requires 0 <= i < |tracts| => f(tracts[i]))
  }

  lemma {:induction false} ReadingsPermutation(a: seq<Tract>, b: seq<Tract>, f: Tract -> real)
    requires multiset(a) == multiset(b)
    ensures multiset(Readings(a, f)) == multiset(Readings(b, f))
  {
    SameMembers(a, b);
    if a != [] {
      var i := TakeOut(a, b);
      var k := |a| - 1;
      var x, rest := f(a[k]), b[..i] + b[i + 1..];
      ReadingsPermutation(a[..k], rest, f);
      assert Readings(a, f) == Readings(a[..k], f) + [x];
      assert Readings(b, f) == Readings(b[..i], f) + [x] + Readings(b[i + 1..], f);
      assert Readings(rest, f) == Readings(b[..i], f) + Readings(b[i + 1..], f);
    }
  }

  lemma {:induction false} PublishedConcat(a: seq<Tract>, b: seq<Tract>, c: Text)
    ensures Published(a + b, c) == Published(a, c) + Published(b, c)
  {
    if b == [] {
      assert a + b == a;
    } else {
      assert (a + b)[..|a + b| - 1] == a + b[..|b| - 1];
      PublishedConcat(a, b[..|b| - 1], c);
    }
  }

  lemma {:induction false} PublishedPermutation(a: seq<Tract>, b: seq<Tract>, c: Text)
    requires multiset(a) == multiset(b)
    ensures multiset(Published(a, c)) == multiset(Published(b, c))
  {
    SameMembers(a, b);
    if a != [] {
      var i := TakeOut(a, b);
      var k := |a| - 1;
      var rest := b[..i] + b[i + 1..];
      PublishedPermutation(a[..k], rest, c);
      PublishedConcat(a[..k], [a[k]], c);
      PublishedConcat(b[..i], [a[k]] + b[i + 1..], c);
      PublishedConcat([a[k]], b[i + 1..], c);
      PublishedConcat(b[..i], b[i + 1..], c);
    }
  }

  /** Each measure's figures depend on the tracts as a bag. */
  lemma StatsForPermutation(a: seq<Tract>, b: seq<Tract>, c: Text)
    requires multiset(a) == multiset(b)
    ensures StatsFor(a, c) == StatsFor(b, c)
  {
    PublishedPermutation(a, b, c);
    RealOrder();
    SortPermutation(Published(a, c), Published(b, c), RealLe);
  }

  lemma TotalsPermutation(a: seq<Tract>, b: seq<Tract>)
    requires multiset(a) == multiset(b)
    ensures Sum(Populations(a)) == Sum(Populations(b)) && Sum(Adults(a)) == Sum(Adults(b)) && |a| == |b|
  {
    var p := (t: Tract) => OrElse(t.totalPopulation, 0.0);
    var q := (t: Tract) => OrElse(t.totalPop18plus, 0.0);
    ReadingsPermutation(a, b, p);
    ReadingsPermutation(a, b, q);
    SumPermutation(Readings(a, p), Readings(b, p));
    SumPermutation(Readings(a, q), Readings(b, q));
    assert Readings(a, p) == Populations(a) && Readings(b, p) == Populations(b);
    assert Readings(a, q) == Adults(a) && Readings(b, q) == Adults(b);
    SameMembers(a, b);
  }

  // ------------------------------------------------------------------ how the figures relate

  /** A figure published to at most four decimals. */
  predicate OnGrid(x: real) { (x * 10000.0).Floor as real == x * 10000.0 }

  lemma FloorShift(x: real, n: int)
    ensures (x + n as real).Floor == x.Floor + n
  {
  }

  lemma ToFixed4OnGrid(x: real)
    ensures OnGrid(x) <==> ToFixed4(x) == x
  {
    if x < 0.0 {
      var y := -x * 10000.0;
      if OnGrid(x) {
        var n := (x * 10000.0).Floor;
        assert y == (-n) as real;
        FloorShift(0.5, -n);
        assert (y + 0.5).Floor == -n;
      }
      if ToFixed4(x) == x {
        var k := (y + 0.5).Floor;
        assert -(k as real / 10000.0) == x;
        assert x * 10000.0 == (-k) as real;
      }
    } else {
      if OnGrid(x) {
        var n := (x * 10000.0).Floor;
        FloorShift(0.5, n);
        assert (x * 10000.0 + 0.5).Floor == n;
      }
      if ToFixed4(x) == x {
        var k := (x * 10000.0 + 0.5).Floor;
        assert x * 10000.0 == k as real;
      }
    }
  }

  lemma FloorMonotone(x: real, y: real)
    requires x <= y
    ensures x.Floor <= y.Floor
  {
  }

  lemma ToFixed4Monotone(x: real, y: real)
    requires x <= y
    ensures ToFixed4(x) <= ToFixed4(y)
  {
    if x >= 0.0 {
      FloorMonotone(x * 10000.0 + 0.5, y * 10000.0 + 0.5);
    } else if y < 0.0 {
      FloorMonotone(-y * 10000.0 + 0.5, -x * 10000.0 + 0.5);
    } else {
      FloorMonotone(0.5, -x * 10000.0 + 0.5);
      FloorMonotone(0.5, y * 10000.0 + 0.5);
    }
  }

  lemma {:induction false} SumBounds(vals: seq<real>, lo: real, hi: real)
    requires forall i :: 0 <= i < |vals| ==> lo <= vals[i] <= hi
    ensures lo * |vals| as real <= Sum(vals) <= hi * |vals| as real
  {
    if vals != [] { SumBounds(vals[..|vals| - 1], lo, hi); }
  }

  lemma MeanBounds(vals: seq<real>, lo: real, hi: real)
    requires vals != [] && forall i :: 0 <= i < |vals| ==> lo <= vals[i] <= hi
    ensures lo <= Sum(vals) / |vals| as real <= hi
  {
    SumBounds(vals, lo, hi);
    DivideBounds(Sum(vals), |vals| as real, lo, hi);
  }

  lemma DivideBounds(s: real, n: real, lo: real, hi: real)
    requires n > 0.0 && lo * n <= s <= hi * n
    ensures lo <= s / n <= hi
  {
    var q := s / n;
    assert q * n == s;
    if q < lo { PositiveProduct(lo - q, n); }
    if q > hi { PositiveProduct(q - hi, n); }
  }

  lemma PositiveProduct(a: real, b: real)
    requires a > 0.0 && b > 0.0
    ensures a * b > 0.0
  {
  }

  predicate InOrder(f: MeasureStats) { f.min <= f.median <= f.max && f.min <= f.mean <= f.max }

  /** Rounding to four decimals takes neither bound outwards. */
  predicate RoundsInwards(f: MeasureStats) { f.min <= ToFixed4(f.min) && ToFixed4(f.max) <= f.max }

  lemma SortedFigures(vals: seq<real>)
    requires vals != [] && Sorted(vals, RealLe) && RoundsInwards(Figures(vals))
    ensures InOrder(Figures(vals))
  {
    hide ToFixed4, Sum;
    var n := |vals|;
    forall i | 0 <= i < n ensures vals[0] <= vals[i] <= vals[n - 1] {
      if i > 0 { assert RealLe(vals[0], vals[i]); }
      if i < n - 1 { assert RealLe(vals[i], vals[n - 1]); }
    }
    MeanBounds(vals, vals[0], vals[n - 1]);
    ToFixed4Monotone(vals[0], Sum(vals) / n as real);
    ToFixed4Monotone(Sum(vals) / n as real, vals[n - 1]);
    if n % 2 == 0 {
      var mid := (vals[n / 2 - 1] + vals[n / 2]) / 2.0;
      ToFixed4Monotone(vals[0], mid);
      ToFixed4Monotone(mid, vals[n - 1]);
    }
  }

  /**
   The least and greatest value bound both the mean and the median unless rounding takes one of the two outwards;
   values of at most four decimals are never taken anywhere.
   */
  lemma FiguresOrdered(tracts: seq<Tract>, c: Text)
    requires Published(tracts, c) != []
    ensures RoundsInwards(StatsFor(tracts, c)) ==> InOrder(StatsFor(tracts, c))
    ensures (forall x :: x in Published(tracts, c) ==> OnGrid(x)) ==> RoundsInwards(StatsFor(tracts, c))
    ensures StatsFor(tracts, c).n == |Published(tracts, c)|
  {
    var vals := Sort(Published(tracts, c), RealLe);
    RealOrder();
    SortSorts(Published(tracts, c), RealLe);
    SameMembers(vals, Published(tracts, c));
    assert vals[0] in vals && vals[|vals| - 1] in vals;
    FiguresCount(vals);
    hide Sum, ToFixed4, OnGrid, Published, Sort;
    if RoundsInwards(Figures(vals)) { SortedFigures(vals); }
    ToFixed4OnGrid(vals[0]);
    ToFixed4OnGrid(vals[|vals| - 1]);
  }

  lemma ToFixed4Close(x: real)
    ensures x - 0.00005 <= ToFixed4(x) <= x + 0.00005
  {
    var y := if x < 0.0 then -x * 10000.0 + 0.5 else x * 10000.0 + 0.5;
    assert y.Floor as real <= y < y.Floor as real + 1.0;
  }

  lemma MiddleFigures(vals: seq<real>)
    requires vals != [] && Sorted(vals, RealLe) && forall i :: 0 <= i < |vals| ==> OnGrid(vals[i])
    ensures var f := Figures(vals); vals[(|vals| - 1) / 2] <= f.median <= vals[|vals| / 2]
  {
    hide ToFixed4, OnGrid;
    var n := |vals|;
    if n % 2 == 0 {
      var a, b := vals[n / 2 - 1], vals[n / 2];
      assert RealLe(a, b);
      ToFixed4OnGrid(a);
      ToFixed4OnGrid(b);
      ToFixed4Monotone(a, (a + b) / 2.0);
      ToFixed4Monotone((a + b) / 2.0, b);
    }
  }

  /**
   What the figures say about the published values: the least and the greatest are among them and bound them all,
   the mean is the exact average to half a unit of the fourth decimal, and the median lies between the middle two.
   */
  lemma FiguresMeaning(tracts: seq<Tract>, c: Text)
    requires Published(tracts, c) != [] && forall x :: x in Published(tracts, c) ==> OnGrid(x)
    ensures var f, vals := StatsFor(tracts, c), Published(tracts, c);
      && f.min in vals && f.max in vals && (forall x :: x in vals ==> f.min <= x <= f.max)
      && Sum(vals) / |vals| as real - 0.00005 <= f.mean <= Sum(vals) / |vals| as real + 0.00005
      && var s := Sort(vals, RealLe);
      && Sorted(s, RealLe) && s[(|s| - 1) / 2] <= f.median <= s[|s| / 2]
  {
    hide OnGrid, ToFixed4, Sum, Sort, Published;
    var vals := Published(tracts, c);
    var s := Sort(vals, RealLe);
    RealOrder();
    SortSorts(vals, RealLe);
    SameMembers(s, vals);
    SumPermutation(s, vals);
    ToFixed4Close(Sum(s) / |s| as real);
    MiddleFigures(s);
    forall x | x in vals ensures s[0] <= x <= s[|s| - 1] {
      var i :| 0 <= i < |s| && s[i] == x;
      assert i > 0 ==> RealLe(s[0], s[i]);
      assert i < |s| - 1 ==> RealLe(s[i], s[|s| - 1]);
    }
    assert s[0] in s && s[|s| - 1] in s;
  }

  lemma FiguresCount(vals: seq<real>)
    ensures Figures(vals).n == |vals|
  {
  }

  /** A single value bounds its own mean exactly when it has at most four decimals. */
  lemma SingleFigure(x: real)
    ensures InOrder(Figures([x])) <==> OnGrid(x)
  {
    assert [x][..0] == [];
    assert Sum([x]) == x;
    assert x / 1.0 == x;
    ToFixed4OnGrid(x);
  }

  predicate Publishes(t: Tract, c: Text, x: real) { c in t.values && t.values[c] == Some(x) }

  lemma {:induction false} PublishedMembers(tracts: seq<Tract>, c: Text, x: real)
    ensures x in Published(tracts, c) <==> exists t :: t in tracts && Publishes(t, c, x)
  {
    if tracts != [] {
      var k := |tracts| - 1;
      PublishedMembers(tracts[..k], c, x);
      assert tracts == tracts[..k] + [tracts[k]];
      assert tracts[k] in tracts;
    }
  }

  /** Tracts of the corpus, whichever a query selects and in whatever order. */
  ghost predicate Selection(s: seq<Tract>, tracts: seq<Tract>) { forall t :: t in s ==> t in tracts }

  /**
   The exact condition over a corpus: least, median, mean and greatest are ordered for every selection of its tracts
   that publishes a value, if and only if every published value has at most four decimals.
   */
  lemma SelectionsOrderedIff(tracts: seq<Tract>, c: Text)
    ensures (forall s :: Selection(s, tracts) && Published(s, c) != [] ==> InOrder(StatsFor(s, c))) <==>
      (forall x :: x in Published(tracts, c) ==> OnGrid(x))
  {
    hide OnGrid, InOrder, StatsFor, Published;
    if forall x :: x in Published(tracts, c) ==> OnGrid(x) {
      forall s | Selection(s, tracts) && Published(s, c) != [] ensures InOrder(StatsFor(s, c)) {
        forall x | x in Published(s, c) ensures OnGrid(x) {
          PublishedMembers(s, c, x);
          PublishedMembers(tracts, c, x);
        }
        FiguresOrdered(s, c);
      }
    } else {
      var x :| x in Published(tracts, c) && !OnGrid(x);
      PublishedMembers(tracts, c, x);
      var t :| t in tracts && Publishes(t, c, x);
      SingleTract(t, c, x);
      SingleFigure(x);
      assert Selection([t], tracts) && !InOrder(StatsFor([t], c));
    }
  }

  lemma SingleTract(t: Tract, c: Text, x: real)
    requires Publishes(t, c, x)
    ensures Published([t], c) == [x] && StatsFor([t], c) == Figures([x])
  {
    assert [t][..0] == [];
    assert Published([t], c) == [x];
    assert [x][1..] == [];
    assert Sort([x], RealLe) == [x];
  }
}
