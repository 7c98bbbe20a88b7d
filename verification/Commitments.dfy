/**
 The quote's two commitments: the statistics of the slice, and the criteria that produced it. Each is the
 hash of a canonical encoding, so what it pins is decided by `Canonical.EncodingIsIdentity`.
 */
module Commitments {
  import opened Sorting
  import opened Canonical
  import opened Places
  import Settlement

  type Hasher = Text -> Text

  ghost predicate CollisionFree(sha: Hasher) { forall x, y :: sha(x) == sha(y) ==> x == y }

  /** A property name. */
  function Name(s: string): Text { Settlement.Chars(s) }

  const MIN := Name("min")
  const MAX := Name("max")
  const MEAN := Name("mean")
  const MEDIAN := Name("median")
  const N := Name("n")
  const TRACT_COUNT := Name("tractCount")
  const TOTAL_POPULATION := Name("totalPopulation")
  const TOTAL_POP_18PLUS := Name("totalPop18plus")
  const SCALE := Name("scale")
  const PER_MEASURE := Name("perMeasure")
  const COLUMNS := Name("columns")
  const STATES := Name("states")
  const COUNTIES := Name("counties")
  const MIN_POPULATION := Name("minPopulation")
  const THRESHOLDS := Name("thresholds")

  // ------------------------------------------------------------------ what is hashed

  /** A number as the canonical encoder meets it: only an integer has a canonical form. */
  function JsonNumber(x: real): Json { if x.Floor as real == x then Num(x.Floor) else Inexact }

  function OptionalNumber(o: Option<real>): Json { if o.Some? then JsonNumber(o.value) else Null }

  /** `Math.round(x * 10000)`. */
  function Scaled(x: real): Json { Num((x * 10000.0 + 0.5).Floor) }

  function FiguresJson(f: MeasureStats): Json {
    Obj([Member(MIN, Scaled(f.min)), Member(MAX, Scaled(f.max)), Member(MEAN, Scaled(f.mean)),
         Member(MEDIAN, Scaled(f.median)), Member(N, Num(f.n))])
  }

  function MeasureMembers(ps: seq<(Text, MeasureStats)>): (r: seq<Member>)
    ensures |r| == |ps|
  {
    seq(|ps|, i requires 0 <= i < |ps| => Member(ps[i].0, FiguresJson(ps[i].1)))
  }

  function StatsJson(s: AggregateStats): Json {
    Obj([Member(TRACT_COUNT, Num(s.tractCount)), Member(TOTAL_POPULATION, JsonNumber(s.totalPopulation)),
         Member(TOTAL_POP_18PLUS, JsonNumber(s.totalPop18plus)), Member(SCALE, Num(10000)),
         Member(PER_MEASURE, Obj(MeasureMembers(s.perMeasure)))])
  }

  function Strings(ss: seq<Text>): Json { Arr(seq(|ss|, i requires 0 <= i < |ss| => Str(ss[i]))) }

  function ThresholdJson(t: Threshold): Json {
    Obj([Member(MIN, OptionalNumber(t.min)), Member(MAX, OptionalNumber(t.max))])
  }

  function ThresholdMembers(ts: seq<(Text, Threshold)>): (r: seq<Member>)
    ensures |r| == |ts|
  {
    seq(|ts|, i requires 0 <= i < |ts| => Member(ts[i].0, ThresholdJson(ts[i].1)))
  }

  function CriteriaObject(columns: Json, states: Json, counties: Json, minPopulation: Json, thresholds: Json): Json {
    Obj([Member(COLUMNS, columns), Member(STATES, states), Member(COUNTIES, counties),
         Member(MIN_POPULATION, minPopulation), Member(THRESHOLDS, thresholds)])
  }

  function Bag(ss: seq<Text>): Json { Strings(Sort(ss, LexLe)) }

  function ThresholdsJson(ts: seq<(Text, Threshold)>): Json { Obj(ThresholdMembers(ts)) }

  function CriteriaJson(q: Query): Json {
    CriteriaObject(Bag(q.columns), Bag(q.states), Bag(q.counties), OptionalNumber(q.minPopulation),
      ThresholdsJson(q.thresholds))
  }

  /** Hash of the canonical encoding, or nothing when the encoder refuses the value. */
  function HashOf(sha: Hasher, v: Json): Option<Text>
    requires Representable(v)
  {
    match Encode(v)
    case None => None
    case Some(t) => Some(sha(t))
  }

  // ------------------------------------------------------------------ representable values

  ghost predicate Texts(ss: seq<Text>) { forall s :: s in ss ==> IsText(s) }

  ghost predicate DistinctNames<T>(ps: seq<(Text, T)>) { forall i, j :: 0 <= i < j < |ps| ==> ps[i].0 != ps[j].0 }

  ghost predicate TextNames<T>(ps: seq<(Text, T)>) { forall i :: 0 <= i < |ps| ==> IsText(ps[i].0) }

  /** A query whose strings are strings and whose thresholds form an object. */
  ghost predicate QueryOk(q: Query) {
    && Texts(q.columns) && Texts(q.states) && Texts(q.counties)
    && DistinctNames(q.thresholds) && TextNames(q.thresholds)
  }

  lemma NamesOk()
    ensures IsText(MIN) && IsText(MAX) && IsText(MEAN) && IsText(MEDIAN) && IsText(N) && MIN != MAX
    ensures |MIN| == 3 && |MAX| == 3 && |MEAN| == 4 && |MEDIAN| == 6 && |N| == 1
  {
    assert MIN[1] == 'i' as int && MAX[1] == 'a' as int;
  }

  lemma StatsNamesOk()
    ensures IsText(TRACT_COUNT) && IsText(TOTAL_POPULATION) && IsText(TOTAL_POP_18PLUS) && IsText(SCALE) &&
      IsText(PER_MEASURE)
    ensures |TRACT_COUNT| == 10 && |TOTAL_POPULATION| == 15 && |TOTAL_POP_18PLUS| == 14 && |SCALE| == 5 &&
      |PER_MEASURE| == 10
    ensures TRACT_COUNT != PER_MEASURE
  {
    assert TRACT_COUNT[0] == 't' as int && PER_MEASURE[0] == 'p' as int;
  }

  lemma CriteriaNamesOk()
    ensures IsText(COLUMNS) && IsText(STATES) && IsText(COUNTIES) && IsText(MIN_POPULATION) && IsText(THRESHOLDS)
    ensures |COLUMNS| == 7 && |STATES| == 6 && |COUNTIES| == 8 && |MIN_POPULATION| == 13 && |THRESHOLDS| == 10
  {
  }

  lemma FiguresRepresentable(f: MeasureStats)
    ensures Representable(FiguresJson(f))
  {
    NamesOk();
  }

  lemma StatsRepresentable(s: AggregateStats)
    requires DistinctNames(s.perMeasure) && TextNames(s.perMeasure)
    ensures Representable(StatsJson(s))
  {
    StatsNamesOk();
    var ms := MeasureMembers(s.perMeasure);
    assert Representable(Obj(ms)) by {
      forall m | m in ms ensures IsText(m.key) && Representable(m.value) {
        var i :| 0 <= i < |ms| && ms[i] == m;
        FiguresRepresentable(s.perMeasure[i].1);
      }
    }
  }

  lemma StringsRepresentable(ss: seq<Text>)
    requires Texts(ss)
    ensures Representable(Bag(ss))
  {
    var sorted := Sort(ss, LexLe);
    SameMembers(sorted, ss);
    forall x | x in Strings(sorted).items ensures Representable(x) {
      var i :| 0 <= i < |sorted| && x == Str(sorted[i]);
      assert sorted[i] in sorted;
    }
  }

  lemma ThresholdsRepresentable(ts: seq<(Text, Threshold)>)
    requires DistinctNames(ts) && TextNames(ts)
    ensures Representable(ThresholdsJson(ts))
  {
    NamesOk();
    var ms := ThresholdMembers(ts);
    forall m | m in ms ensures IsText(m.key) && Representable(m.value) {
      var i :| 0 <= i < |ms| && ms[i] == m;
    }
  }

  lemma CriteriaRepresentable(q: Query)
    requires QueryOk(q)
    ensures Representable(CriteriaJson(q))
  {
    CriteriaNamesOk();
    StringsRepresentable(q.columns);
    StringsRepresentable(q.states);
    StringsRepresentable(q.counties);
    ThresholdsRepresentable(q.thresholds);
    assert Representable(OptionalNumber(q.minPopulation));
    hide Bag, ThresholdsJson, OptionalNumber, Representable, IsText;
    FiveRepresentable(
      Member(COLUMNS, Bag(q.columns)), Member(STATES, Bag(q.states)), Member(COUNTIES, Bag(q.counties)),
      Member(MIN_POPULATION, OptionalNumber(q.minPopulation)), Member(THRESHOLDS, ThresholdsJson(q.thresholds)));
  }

  lemma FiveRepresentable(a: Member, b: Member, c: Member, d: Member, e: Member)
    requires IsText(a.key) && IsText(b.key) && IsText(c.key) && IsText(d.key) && IsText(e.key)
    requires Representable(a.value) && Representable(b.value) && Representable(c.value)
    requires Representable(d.value) && Representable(e.value)
    requires a.key != b.key && a.key != c.key && a.key != d.key && a.key != e.key && b.key != c.key
    requires b.key != d.key && b.key != e.key && c.key != d.key && c.key != e.key && d.key != e.key
    ensures Representable(Obj([a, b, c, d, e]))
  {
  }

  // ------------------------------------------------------------------ sameness, member by member

  lemma {:induction false} SelfSame(v: Json)
    ensures Same(v, v)
    decreases v
  {
    match v
    case Arr(items) => forall i | 0 <= i < |items| ensures Same(items[i], items[i]) { SelfSame(items[i]); }
    case Obj(ms) =>
      forall i | 0 <= i < |ms| && ms[i].value != Undefined ensures FoundIn(ms[i], ms) && Finds(v, ms[i]) {
        SelfSame(ms[i].value);
      }
    case _ =>
  }

  /** Objects with the same keys in the same places are the same when their values are. */
  lemma SamePointwise(a: seq<Member>, b: seq<Member>)
    requires |a| == |b| && forall i :: 0 <= i < |a| ==> a[i].key == b[i].key && Same(a[i].value, b[i].value)
    requires forall i :: 0 <= i < |a| ==> a[i].value != Undefined && b[i].value != Undefined
    ensures Same(Obj(a), Obj(b))
  {
    forall i | 0 <= i < |a| ensures FoundIn(a[i], b) && Finds(Obj(a), b[i]) {
      assert b[i].key == a[i].key;
    }
  }

  /** The counterpart of a member of the same object: with distinct keys it sits where its key does. */
  lemma CounterpartAt(a: seq<Member>, b: seq<Member>, i: nat, j: nat)
    requires Same(Obj(a), Obj(b)) && DistinctKeys(b) && i < |a| && j < |b|
    requires a[i].key == b[j].key && a[i].value != Undefined
    ensures Same(a[i].value, b[j].value)
  {
    var k := SameMemberIn(Obj(a), Obj(b), i);
    assert k == j;
  }

  /** Enumerating the same members in another order changes nothing. */
  lemma SameEnumeration(a: seq<Member>, b: seq<Member>)
    requires forall m :: m in a <==> m in b
    ensures Same(Obj(a), Obj(b))
  {
    forall i | 0 <= i < |a| && a[i].value != Undefined ensures FoundIn(a[i], b) {
      assert a[i] in a;
      var j :| 0 <= j < |b| && b[j] == a[i];
      SelfSame(a[i].value);
    }
    forall j | 0 <= j < |b| && b[j].value != Undefined ensures Finds(Obj(a), b[j]) {
      assert b[j] in b;
      var i :| 0 <= i < |a| && a[i] == b[j];
      SelfSame(b[j].value);
    }
  }

  lemma SameMeasures(p: seq<(Text, MeasureStats)>, r: seq<(Text, MeasureStats)>)
    requires forall x :: x in p <==> x in r
    ensures Same(Obj(MeasureMembers(p)), Obj(MeasureMembers(r)))
  {
    MeasuresIn(p, r);
    MeasuresIn(r, p);
    SameEnumeration(MeasureMembers(p), MeasureMembers(r));
  }

  lemma MeasuresIn(p: seq<(Text, MeasureStats)>, r: seq<(Text, MeasureStats)>)
    requires forall x :: x in p ==> x in r
    ensures forall m :: m in MeasureMembers(p) ==> m in MeasureMembers(r)
  {
    var a, b := MeasureMembers(p), MeasureMembers(r);
    forall m | m in a ensures m in b {
      var i :| 0 <= i < |a| && a[i] == m;
      assert p[i] in p;
      var j :| 0 <= j < |r| && r[j] == p[i];
      assert b[j] == m;
    }
  }

  // ------------------------------------------------------------------ what statsHash depends on

  function StatsHash(sha: Hasher, s: AggregateStats): Option<Text>
    requires Representable(StatsJson(s))
  {
    HashOf(sha, StatsJson(s))
  }

  lemma StatsOk(tracts: seq<Tract>, columns: seq<Text>)
    requires Texts(columns)
    ensures Representable(StatsJson(Stats(tracts, columns)))
  {
    PerMeasureFacts(tracts, columns);
    var r := PerMeasure(tracts, columns);
    forall i | 0 <= i < |r| ensures IsText(r[i].0) { assert r[i] in r; }
    StatsRepresentable(Stats(tracts, columns));
  }

  /**
   The committed statistics depend on the matched tracts as a bag and on the purchased columns as a set:
   neither the corpus order nor the order or repetition of columns in the query can move the hash.
   */
  lemma StatsHashIgnoresOrder(sha: Hasher, a: seq<Tract>, b: seq<Tract>, c: seq<Text>, d: seq<Text>)
    requires multiset(a) == multiset(b) && Texts(c) && Texts(d) && forall x :: x in c <==> x in d
    ensures Representable(StatsJson(Stats(a, c))) && Representable(StatsJson(Stats(b, d)))
    ensures StatsHash(sha, Stats(a, c)) == StatsHash(sha, Stats(b, d))
  {
    StatsOk(a, c);
    StatsOk(b, d);
    TotalsPermutation(a, b);
    PerMeasureFacts(a, c);
    PerMeasureFacts(b, d);
    var p, r := PerMeasure(a, c), PerMeasure(b, d);
    forall x ensures x in p <==> x in r { StatsForPermutation(a, b, x.0); }
    SameStats(Stats(a, c), Stats(b, d));
    EncodingIsIdentity(StatsJson(Stats(a, c)), StatsJson(Stats(b, d)));
  }

  lemma SameStats(s: AggregateStats, t: AggregateStats)
    requires s.tractCount == t.tractCount && s.totalPopulation == t.totalPopulation &&
      s.totalPop18plus == t.totalPop18plus
    requires forall x :: x in s.perMeasure <==> x in t.perMeasure
    ensures Same(StatsJson(s), StatsJson(t))
  {
    SameMeasures(s.perMeasure, t.perMeasure);
    var a, b := StatsJson(s).members, StatsJson(t).members;
    hide MeasureMembers;
    forall i | 0 <= i < 5 ensures a[i].key == b[i].key && Same(a[i].value, b[i].value) {
      if i < 4 { assert a[i] == b[i]; SelfSame(a[i].value); }
    }
    SamePointwise(a, b);
  }

  /** So a query priced on a reordered corpus commits to the same statistics. */
  lemma QuoteIgnoresCorpusOrder(sha: Hasher, q: Query, r: Query, a: seq<Tract>, b: seq<Tract>)
    requires multiset(a) == multiset(b) && QueryOk(q) && QueryOk(r)
    requires r == q.(columns := r.columns) && forall x :: x in q.columns <==> x in r.columns
    ensures Representable(StatsJson(Stats(Slice(q, a), q.columns))) &&
      Representable(StatsJson(Stats(Slice(r, b), r.columns)))
    ensures StatsHash(sha, Stats(Slice(q, a), q.columns)) == StatsHash(sha, Stats(Slice(r, b), r.columns))
  {
    SlicePermutation(q, a, b);
    SameSlice(q, r, b);
    StatsHashIgnoresOrder(sha, Slice(q, a), Slice(r, b), q.columns, r.columns);
  }

  lemma {:induction false} SameSlice(q: Query, r: Query, tracts: seq<Tract>)
    requires r == q.(columns := r.columns) && forall x :: x in q.columns <==> x in r.columns
    ensures Slice(q, tracts) == Slice(r, tracts)
  {
    if tracts != [] {
      SameSlice(q, r, tracts[1..]);
      assert Matches(q, tracts[0]) <==> Matches(r, tracts[0]);
    }
  }

  // ------------------------------------------------------------------ what statsHash pins

  predicate ExactFigure(x: real) { OnGrid(x) && SafeInteger((x * 10000.0).Floor) }

  predicate ExactFigures(f: MeasureStats) {
    ExactFigure(f.min) && ExactFigure(f.max) && ExactFigure(f.mean) && ExactFigure(f.median) && SafeInteger(f.n)
  }

  /** Statistics whose figures have at most four decimals and whose totals are whole. */
  ghost predicate ExactStats(s: AggregateStats) {
    && Whole(s.totalPopulation) && Whole(s.totalPop18plus) && SafeInteger(s.tractCount)
    && DistinctNames(s.perMeasure) && TextNames(s.perMeasure)
    && forall i :: 0 <= i < |s.perMeasure| ==> ExactFigures(s.perMeasure[i].1)
  }

  /** The same statistics, with the measures listed in any order. */
  ghost predicate EqualStats(s: AggregateStats, t: AggregateStats) {
    && s.tractCount == t.tractCount && s.totalPopulation == t.totalPopulation && s.totalPop18plus == t.totalPop18plus
    && forall x :: x in s.perMeasure <==> x in t.perMeasure
  }

  /** Scaling loses nothing on the grid. */
  lemma ScaledExact(x: real)
    requires ExactFigure(x)
    ensures Scaled(x) == Num((x * 10000.0).Floor) && Supported(Scaled(x)) && Scaled(x).n as real / 10000.0 == x
  {
    FloorShift(0.5, (x * 10000.0).Floor);
  }

  lemma FiguresSupported(f: MeasureStats)
    requires ExactFigures(f)
    ensures Supported(FiguresJson(f))
  {
    ScaledExact(f.min);
    ScaledExact(f.max);
    ScaledExact(f.mean);
    ScaledExact(f.median);
    hide Scaled, OnGrid;
    FiveSupported(FiguresJson(f).members);
  }

  lemma FiveSupported(ms: seq<Member>)
    requires |ms| == 5 && Supported(ms[0].value) && Supported(ms[1].value) && Supported(ms[2].value)
    requires Supported(ms[3].value) && Supported(ms[4].value)
    ensures Supported(Obj(ms))
  {
  }

  lemma MeasuresSupported(ps: seq<(Text, MeasureStats)>)
    requires forall i :: 0 <= i < |ps| ==> ExactFigures(ps[i].1)
    ensures Supported(Obj(MeasureMembers(ps)))
  {
    var ms := MeasureMembers(ps);
    forall m | m in ms ensures Supported(m.value) {
      var i :| 0 <= i < |ms| && ms[i] == m;
      FiguresSupported(ps[i].1);
    }
  }

  lemma StatsSupported(s: AggregateStats)
    requires ExactStats(s)
    ensures Supported(StatsJson(s))
  {
    MeasuresSupported(s.perMeasure);
    assert Supported(JsonNumber(s.totalPopulation)) && Supported(JsonNumber(s.totalPop18plus));
    assert Supported(Num(s.tractCount)) && Supported(Num(10000));
    hide MeasureMembers, JsonNumber, Supported;
    FiveSupported(StatsJson(s).members);
  }

  lemma FiguresMembers(f: MeasureStats)
    ensures var o := FiguresJson(f);
      && o.Obj? && |o.members| == 5 && o == Obj(o.members)
      && o.members[0] == Member(MIN, Scaled(f.min)) && o.members[1] == Member(MAX, Scaled(f.max))
      && o.members[2] == Member(MEAN, Scaled(f.mean)) && o.members[3] == Member(MEDIAN, Scaled(f.median))
      && o.members[4] == Member(N, Num(f.n))
  {
  }

  lemma FigureKeysDiffer()
    ensures MIN != MAX && MIN != MEAN && MIN != MEDIAN && MIN != N && MAX != MEAN && MAX != MEDIAN && MAX != N
    ensures MEAN != MEDIAN && MEAN != N && MEDIAN != N
  {
    NamesOk();
  }

  lemma ScaledInjective(x: real, y: real)
    requires ExactFigure(x) && ExactFigure(y)
    ensures Same(Scaled(x), Scaled(y)) <==> x == y
    ensures Scaled(x) != Undefined
  {
    ScaledExact(x);
    ScaledExact(y);
  }

  lemma SameFigures(f: MeasureStats, g: MeasureStats)
    requires ExactFigures(f) && ExactFigures(g)
    ensures Same(FiguresJson(f), FiguresJson(g)) <==> f == g
  {
    FiguresMembers(f);
    FiguresMembers(g);
    FigureKeysDiffer();
    ScaledInjective(f.min, g.min);
    ScaledInjective(f.max, g.max);
    ScaledInjective(f.mean, g.mean);
    ScaledInjective(f.median, g.median);
    ScaledInjective(g.min, f.min);
    ScaledInjective(g.max, f.max);
    ScaledInjective(g.mean, f.mean);
    ScaledInjective(g.median, f.median);
    assert Same(Num(f.n), Num(g.n)) <==> f.n == g.n;
    hide *;
    FiveDistinct(FiguresJson(g).members);
    FiveAligned(FiguresJson(f).members, FiguresJson(g).members);
  }

  lemma StatsMembers(s: AggregateStats)
    ensures var o := StatsJson(s);
      && o.Obj? && |o.members| == 5 && o == Obj(o.members)
      && o.members[0] == Member(TRACT_COUNT, Num(s.tractCount))
      && o.members[1] == Member(TOTAL_POPULATION, JsonNumber(s.totalPopulation))
      && o.members[2] == Member(TOTAL_POP_18PLUS, JsonNumber(s.totalPop18plus))
      && o.members[3] == Member(SCALE, Num(10000))
      && o.members[4] == Member(PER_MEASURE, Obj(MeasureMembers(s.perMeasure)))
  {
  }

  lemma StatsKeysDiffer()
    ensures TRACT_COUNT != TOTAL_POPULATION && TRACT_COUNT != TOTAL_POP_18PLUS && TRACT_COUNT != SCALE
    ensures TRACT_COUNT != PER_MEASURE && TOTAL_POPULATION != TOTAL_POP_18PLUS && TOTAL_POPULATION != SCALE
    ensures TOTAL_POPULATION != PER_MEASURE && TOTAL_POP_18PLUS != SCALE && TOTAL_POP_18PLUS != PER_MEASURE
    ensures SCALE != PER_MEASURE
  {
    StatsNamesOk();
  }

  lemma SameTotals(x: real, y: real)
    requires Whole(x) && Whole(y)
    ensures Same(JsonNumber(x), JsonNumber(y)) <==> x == y
    ensures JsonNumber(x) != Undefined && JsonNumber(y) != Undefined
  {
  }

  lemma SameMeasuresBack(p: seq<(Text, MeasureStats)>, r: seq<(Text, MeasureStats)>)
    requires Same(Obj(MeasureMembers(p)), Obj(MeasureMembers(r)))
    requires forall i :: 0 <= i < |p| ==> ExactFigures(p[i].1)
    requires forall i :: 0 <= i < |r| ==> ExactFigures(r[i].1)
    ensures forall x :: x in p <==> x in r
  {
    forall x | x in p ensures x in r {
      var i :| 0 <= i < |p| && p[i] == x;
      var j := SameMemberIn(Obj(MeasureMembers(p)), Obj(MeasureMembers(r)), i);
      hide Same, ExactFigures;
      SameFigures(p[i].1, r[j].1);
    }
    forall x | x in r ensures x in p {
      var j :| 0 <= j < |r| && r[j] == x;
      var i := SameMemberOf(Obj(MeasureMembers(p)), Obj(MeasureMembers(r)), j);
      hide Same, ExactFigures;
      SameFigures(p[i].1, r[j].1);
    }
  }

  lemma SameStatsIsEqual(s: AggregateStats, t: AggregateStats)
    requires ExactStats(s) && ExactStats(t)
    ensures Same(StatsJson(s), StatsJson(t)) <==> EqualStats(s, t)
  {
    StatsMembers(s);
    StatsMembers(t);
    StatsKeysDiffer();
    SameTotals(s.totalPopulation, t.totalPopulation);
    SameTotals(s.totalPop18plus, t.totalPop18plus);
    assert Same(Num(s.tractCount), Num(t.tractCount)) <==> s.tractCount == t.tractCount;
    assert Same(Num(10000), Num(10000));
    hide *;
    FiveDistinct(StatsJson(t).members);
    FiveAligned(StatsJson(s).members, StatsJson(t).members);
    assert Same(Obj(MeasureMembers(s.perMeasure)), Obj(MeasureMembers(t.perMeasure))) <==>
      forall x :: x in s.perMeasure <==> x in t.perMeasure by { SameMeasureObjects(s, t); }
    EqualStatsParts(s, t);
  }

  lemma EqualStatsParts(s: AggregateStats, t: AggregateStats)
    ensures EqualStats(s, t) <==>
      s.tractCount == t.tractCount && s.totalPopulation == t.totalPopulation && s.totalPop18plus == t.totalPop18plus
      && forall x :: x in s.perMeasure <==> x in t.perMeasure
  {
  }

  lemma SameMeasureObjects(s: AggregateStats, t: AggregateStats)
    requires ExactStats(s) && ExactStats(t)
    ensures Same(Obj(MeasureMembers(s.perMeasure)), Obj(MeasureMembers(t.perMeasure))) <==>
      forall x :: x in s.perMeasure <==> x in t.perMeasure
  {
    hide Same, ExactFigures;
    if forall x :: x in s.perMeasure <==> x in t.perMeasure { SameMeasures(s.perMeasure, t.perMeasure); }
    if Same(Obj(MeasureMembers(s.perMeasure)), Obj(MeasureMembers(t.perMeasure))) {
      SameMeasuresBack(s.perMeasure, t.perMeasure);
    }
  }

  /** For statistics with at most four decimals the scaled commitment is exact: it identifies them. */
  lemma StatsHashPins(sha: Hasher, s: AggregateStats, t: AggregateStats)
    requires CollisionFree(sha) && ExactStats(s) && ExactStats(t)
    ensures Representable(StatsJson(s)) && Representable(StatsJson(t)) && StatsHash(sha, s).Some?
    ensures StatsHash(sha, s) == StatsHash(sha, t) <==> EqualStats(s, t)
  {
    hide StatsJson, Same, Representable, Supported, EqualStats, ExactFigures;
    StatsRepresentable(s);
    StatsRepresentable(t);
    StatsSupported(s);
    SameStatsIsEqual(s, t);
    HashPins(sha, StatsJson(s), StatsJson(t));
    EncodePrintsCanon(StatsJson(s));
  }

  lemma TenThousandth(k: int)
    ensures OnGrid(k as real / 10000.0)
  {
    assert k as real / 10000.0 * 10000.0 == k as real;
  }

  lemma ToFixed4Exact(x: real)
    ensures OnGrid(ToFixed4(x))
  {
    hide OnGrid;
    if x < 0.0 {
      var k := (-x * 10000.0 + 0.5).Floor;
      TenThousandth(-k);
      assert -(k as real / 10000.0) == (-k) as real / 10000.0;
    } else {
      TenThousandth((x * 10000.0 + 0.5).Floor);
    }
  }

  /** Every figure the engine derives from published values is on the grid the commitment needs. */
  lemma DerivedFiguresOnGrid(tracts: seq<Tract>, c: Text)
    requires forall x :: x in Published(tracts, c) ==> OnGrid(x)
    ensures var f := StatsFor(tracts, c); OnGrid(f.min) && OnGrid(f.max) && OnGrid(f.mean) && OnGrid(f.median)
  {
    hide OnGrid, ToFixed4;
    var vals := Sort(Published(tracts, c), RealLe);
    SameMembers(vals, Published(tracts, c));
    forall x | x in vals ensures OnGrid(x) {}
    if vals == [] {
      assert OnGrid(0.0) by { ZeroOnGrid(); }
    } else {
      var n := |vals|;
      assert vals[0] in vals && vals[n - 1] in vals && vals[n / 2] in vals;
      ToFixed4Exact(Sum(vals) / n as real);
      if n % 2 == 0 { ToFixed4Exact((vals[n / 2 - 1] + vals[n / 2]) / 2.0); }
    }
  }

  lemma ZeroOnGrid()
    ensures OnGrid(0.0)
  {
  }

  // ------------------------------------------------------------------ what criteriaHash pins

  function CriteriaHash(sha: Hasher, q: Query): Option<Text>
    requires Representable(CriteriaJson(q))
  {
    HashOf(sha, CriteriaJson(q))
  }

  /** The same order, written in any order. */
  ghost predicate SameCriteria(q: Query, r: Query) {
    && multiset(q.columns) == multiset(r.columns) && multiset(q.states) == multiset(r.states)
    && multiset(q.counties) == multiset(r.counties) && q.minPopulation == r.minPopulation
    && (forall x :: x in q.thresholds <==> x in r.thresholds)
  }

  /** A number the canonical encoder accepts. */
  predicate Whole(x: real) { x.Floor as real == x && SafeInteger(x.Floor) }

  predicate WholeOption(o: Option<real>) { o.Some? ==> Whole(o.value) }

  /** Every number in the criteria is a safe integer. */
  ghost predicate WholeNumbers(q: Query) {
    && WholeOption(q.minPopulation)
    && forall i :: 0 <= i < |q.thresholds| ==> WholeOption(q.thresholds[i].1.min) && WholeOption(q.thresholds[i].1.max)
  }

  lemma SortedStrings(a: seq<Text>, b: seq<Text>)
    ensures multiset(a) == multiset(b) <==> Strings(Sort(a, LexLe)) == Strings(Sort(b, LexLe))
  {
    LexOrder();
    if multiset(a) == multiset(b) { SortPermutation(a, b, LexLe); }
    if Strings(Sort(a, LexLe)) == Strings(Sort(b, LexLe)) {
      var s, t := Sort(a, LexLe), Sort(b, LexLe);
      var u, v := Strings(s).items, Strings(t).items;
      assert |u| == |v|;
      forall i | 0 <= i < |s| ensures s[i] == t[i] { assert u[i] == Str(s[i]) && v[i] == Str(t[i]); }
      assert s == t;
    }
  }

  lemma SameThresholds(p: seq<(Text, Threshold)>, r: seq<(Text, Threshold)>)
    requires forall x :: x in p <==> x in r
    ensures Same(Obj(ThresholdMembers(p)), Obj(ThresholdMembers(r)))
  {
    ThresholdsIn(p, r);
    ThresholdsIn(r, p);
    SameEnumeration(ThresholdMembers(p), ThresholdMembers(r));
  }

  lemma ThresholdsIn(p: seq<(Text, Threshold)>, r: seq<(Text, Threshold)>)
    requires forall x :: x in p ==> x in r
    ensures forall m :: m in ThresholdMembers(p) ==> m in ThresholdMembers(r)
  {
    var a, b := ThresholdMembers(p), ThresholdMembers(r);
    forall m | m in a ensures m in b {
      var i :| 0 <= i < |a| && a[i] == m;
      assert p[i] in p;
      var j :| 0 <= j < |r| && r[j] == p[i];
      assert b[j] == m;
    }
  }

  lemma SameStringsBack(a: seq<Text>, b: seq<Text>)
    requires Same(Strings(Sort(a, LexLe)), Strings(Sort(b, LexLe)))
    ensures multiset(a) == multiset(b)
  {
    var u, v := Strings(Sort(a, LexLe)).items, Strings(Sort(b, LexLe)).items;
    forall i | 0 <= i < |u| ensures u[i] == v[i] { assert Same(u[i], v[i]); }
    assert u == v;
    SortedStrings(a, b);
  }

  lemma SameNumberBack(o: Option<real>, p: Option<real>)
    requires WholeOption(o) && Same(OptionalNumber(o), OptionalNumber(p))
    ensures o == p
  {
  }

  lemma NumberDefined(o: Option<real>)
    ensures OptionalNumber(o) != Undefined
  {
  }

  lemma SameThresholdBack(t: Threshold, u: Threshold)
    requires WholeOption(t.min) && WholeOption(t.max) && Same(ThresholdJson(t), ThresholdJson(u))
    ensures t == u
  {
    NamesOk();
    hide MIN, MAX, Same, OptionalNumber, WholeOption;
    var a, b := ThresholdJson(t).members, ThresholdJson(u).members;
    NumberDefined(t.min);
    NumberDefined(t.max);
    CounterpartAt(a, b, 0, 0);
    CounterpartAt(a, b, 1, 1);
    SameNumberBack(t.min, u.min);
    SameNumberBack(t.max, u.max);
  }

  lemma SameThresholdsBack(p: seq<(Text, Threshold)>, r: seq<(Text, Threshold)>)
    requires Same(Obj(ThresholdMembers(p)), Obj(ThresholdMembers(r)))
    requires forall i :: 0 <= i < |p| ==> WholeOption(p[i].1.min) && WholeOption(p[i].1.max)
    ensures forall x :: x in p <==> x in r
  {
    forall x | x in p ensures x in r {
      var i :| 0 <= i < |p| && p[i] == x;
      var j := SameMemberIn(Obj(ThresholdMembers(p)), Obj(ThresholdMembers(r)), i);
      hide Same, WholeOption;
      SameThresholdBack(p[i].1, r[j].1);
    }
    forall x | x in r ensures x in p {
      var j :| 0 <= j < |r| && r[j] == x;
      var i := SameMemberOf(Obj(ThresholdMembers(p)), Obj(ThresholdMembers(r)), j);
      hide Same, WholeOption;
      SameThresholdBack(p[i].1, r[j].1);
    }
  }

  lemma BagSupported(ss: seq<Text>)
    ensures Supported(Bag(ss))
  {
  }

  lemma ThresholdSupported(t: Threshold)
    ensures Supported(ThresholdJson(t)) <==> WholeOption(t.min) && WholeOption(t.max)
  {
    var ms := ThresholdJson(t).members;
    assert ms[0] in ms && ms[1] in ms;
  }

  lemma ThresholdsSupported(ts: seq<(Text, Threshold)>)
    ensures Supported(ThresholdsJson(ts)) <==>
      forall i :: 0 <= i < |ts| ==> WholeOption(ts[i].1.min) && WholeOption(ts[i].1.max)
  {
    var ms := ThresholdMembers(ts);
    if forall i :: 0 <= i < |ts| ==> WholeOption(ts[i].1.min) && WholeOption(ts[i].1.max) {
      forall m | m in ms ensures Supported(m.value) {
        var i :| 0 <= i < |ms| && ms[i] == m;
        ThresholdSupported(ts[i].1);
      }
    }
    if Supported(Obj(ms)) {
      forall i | 0 <= i < |ts| ensures WholeOption(ts[i].1.min) && WholeOption(ts[i].1.max) {
        assert ms[i] in ms;
        ThresholdSupported(ts[i].1);
      }
    }
  }

  /** The criteria hash exists exactly when every number in the order is a safe integer: thresholds are not scaled. */
  lemma CriteriaHashable(sha: Hasher, q: Query)
    requires QueryOk(q)
    ensures Representable(CriteriaJson(q)) && (CriteriaHash(sha, q).Some? <==> WholeNumbers(q))
  {
    CriteriaRepresentable(q);
    EncodePrintsCanon(CriteriaJson(q));
    CriteriaSupported(q);
  }

  lemma CriteriaSupported(q: Query)
    ensures Supported(CriteriaJson(q)) <==> WholeNumbers(q)
  {
    hide Bag, ThresholdsJson, OptionalNumber, Supported, WholeOption, CriteriaObject;
    PartsDefined(q);
    BagSupported(q.columns);
    BagSupported(q.states);
    BagSupported(q.counties);
    LimitSupported(q.minPopulation);
    ThresholdsSupported(q.thresholds);
    ObjectSupported(Bag(q.columns), Bag(q.states), Bag(q.counties), OptionalNumber(q.minPopulation),
      ThresholdsJson(q.thresholds));
  }

  lemma LimitSupported(o: Option<real>)
    ensures Supported(OptionalNumber(o)) <==> WholeOption(o)
  {
  }

  lemma ObjectSupported(a: Json, b: Json, c: Json, d: Json, e: Json)
    requires a != Undefined && b != Undefined && c != Undefined && d != Undefined && e != Undefined
    ensures Supported(CriteriaObject(a, b, c, d, e)) <==>
      Supported(a) && Supported(b) && Supported(c) && Supported(d) && Supported(e)
  {
    var ms := CriteriaObject(a, b, c, d, e).members;
    assert ms[0] in ms && ms[1] in ms && ms[2] in ms && ms[3] in ms && ms[4] in ms;
  }

  lemma PartsDefined(q: Query)
    ensures Bag(q.columns) != Undefined && Bag(q.states) != Undefined && Bag(q.counties) != Undefined
    ensures OptionalNumber(q.minPopulation) != Undefined && ThresholdsJson(q.thresholds) != Undefined
  {
  }

  lemma ObjectSame(a: Json, b: Json, c: Json, d: Json, e: Json, a': Json, b': Json, c': Json, d': Json, e': Json)
    requires a != Undefined && b != Undefined && c != Undefined && d != Undefined && e != Undefined
    requires a' != Undefined && b' != Undefined && c' != Undefined && d' != Undefined && e' != Undefined
    ensures Same(CriteriaObject(a, b, c, d, e), CriteriaObject(a', b', c', d', e')) <==>
      Same(a, a') && Same(b, b') && Same(c, c') && Same(d, d') && Same(e, e')
  {
    ObjectMembers(a, b, c, d, e);
    ObjectMembers(a', b', c', d', e');
    CriteriaKeysDiffer();
    hide *;
    var p, r := CriteriaObject(a, b, c, d, e).members, CriteriaObject(a', b', c', d', e').members;
    FiveDistinct(r);
    FiveAligned(p, r);
  }

  lemma ObjectMembers(a: Json, b: Json, c: Json, d: Json, e: Json)
    ensures var o := CriteriaObject(a, b, c, d, e);
      && o.Obj? && |o.members| == 5 && o == Obj(o.members)
      && o.members[0] == Member(COLUMNS, a) && o.members[1] == Member(STATES, b) && o.members[2] == Member(COUNTIES, c)
      && o.members[3] == Member(MIN_POPULATION, d) && o.members[4] == Member(THRESHOLDS, e)
  {
  }

  lemma FiveDistinct(ms: seq<Member>)
    requires |ms| == 5
    requires ms[0].key != ms[1].key && ms[0].key != ms[2].key && ms[0].key != ms[3].key && ms[0].key != ms[4].key
    requires ms[1].key != ms[2].key && ms[1].key != ms[3].key && ms[1].key != ms[4].key
    requires ms[2].key != ms[3].key && ms[2].key != ms[4].key && ms[3].key != ms[4].key
    ensures DistinctKeys(ms)
  {
  }

  lemma FiveAligned(a: seq<Member>, b: seq<Member>)
    requires |a| == 5 && |b| == 5 && DistinctKeys(b)
    requires a[0].key == b[0].key && a[1].key == b[1].key && a[2].key == b[2].key
    requires a[3].key == b[3].key && a[4].key == b[4].key
    requires a[0].value != Undefined && a[1].value != Undefined && a[2].value != Undefined
    requires a[3].value != Undefined && a[4].value != Undefined
    requires b[0].value != Undefined && b[1].value != Undefined && b[2].value != Undefined
    requires b[3].value != Undefined && b[4].value != Undefined
    ensures Same(Obj(a), Obj(b)) <==>
      Same(a[0].value, b[0].value) && Same(a[1].value, b[1].value) && Same(a[2].value, b[2].value) &&
      Same(a[3].value, b[3].value) && Same(a[4].value, b[4].value)
  {
    hide Same, DistinctKeys;
    AlignedSame(a, b);
  }

  /** Objects listing the same keys in the same order are the same exactly when they agree member by member. */
  lemma AlignedSame(a: seq<Member>, b: seq<Member>)
    requires |a| == |b| && forall i :: 0 <= i < |a| ==> a[i].key == b[i].key
    requires forall i :: 0 <= i < |a| ==> a[i].value != Undefined && b[i].value != Undefined
    requires DistinctKeys(b)
    ensures Same(Obj(a), Obj(b)) <==> forall i :: 0 <= i < |a| ==> Same(a[i].value, b[i].value)
  {
    hide Same;
    if Same(Obj(a), Obj(b)) {
      forall i | 0 <= i < |a| ensures Same(a[i].value, b[i].value) { CounterpartAt(a, b, i, i); }
    }
    if forall i :: 0 <= i < |a| ==> Same(a[i].value, b[i].value) { SamePointwise(a, b); }
  }

  lemma CriteriaKeysDiffer()
    ensures COLUMNS != STATES && COLUMNS != COUNTIES && COLUMNS != MIN_POPULATION && COLUMNS != THRESHOLDS
    ensures STATES != COUNTIES && STATES != MIN_POPULATION && STATES != THRESHOLDS
    ensures COUNTIES != MIN_POPULATION && COUNTIES != THRESHOLDS && MIN_POPULATION != THRESHOLDS
  {
    CriteriaNamesOk();
  }

  lemma SameBags(a: seq<Text>, b: seq<Text>)
    ensures Same(Bag(a), Bag(b)) <==> multiset(a) == multiset(b)
  {
    if multiset(a) == multiset(b) {
      SortedStrings(a, b);
      SelfSame(Bag(a));
    }
    if Same(Bag(a), Bag(b)) { SameStringsBack(a, b); }
  }

  lemma SameCriteriaJson(q: Query, r: Query)
    requires WholeNumbers(q)
    ensures Same(CriteriaJson(q), CriteriaJson(r)) <==> SameCriteria(q, r)
  {
    PartsDefined(q);
    PartsDefined(r);
    SameBags(q.columns, r.columns);
    SameBags(q.states, r.states);
    SameBags(q.counties, r.counties);
    hide Bag, ThresholdsJson, OptionalNumber, Same, CriteriaObject;
    ObjectSame(Bag(q.columns), Bag(q.states), Bag(q.counties), OptionalNumber(q.minPopulation),
      ThresholdsJson(q.thresholds),
      Bag(r.columns), Bag(r.states), Bag(r.counties), OptionalNumber(r.minPopulation), ThresholdsJson(r.thresholds));
    SameLimits(q.minPopulation, r.minPopulation);
    SameThresholdObjects(q.thresholds, r.thresholds);
  }

  lemma SameLimits(o: Option<real>, p: Option<real>)
    requires WholeOption(o)
    ensures Same(OptionalNumber(o), OptionalNumber(p)) <==> o == p
  {
    SelfSame(OptionalNumber(o));
    if Same(OptionalNumber(o), OptionalNumber(p)) { SameNumberBack(o, p); }
  }

  lemma SameThresholdObjects(p: seq<(Text, Threshold)>, r: seq<(Text, Threshold)>)
    requires forall i :: 0 <= i < |p| ==> WholeOption(p[i].1.min) && WholeOption(p[i].1.max)
    ensures Same(ThresholdsJson(p), ThresholdsJson(r)) <==> forall x :: x in p <==> x in r
  {
    hide Same;
    if forall x :: x in p <==> x in r { SameThresholds(p, r); }
    if Same(ThresholdsJson(p), ThresholdsJson(r)) { SameThresholdsBack(p, r); }
  }

  /**
   The criteria hash is the order: reordering columns, states, counties or thresholds never moves it, and
   no two orders that differ in anything else share it.
   */
  lemma CriteriaHashPins(sha: Hasher, q: Query, r: Query)
    requires CollisionFree(sha) && QueryOk(q) && QueryOk(r) && WholeNumbers(q)
    ensures Representable(CriteriaJson(q)) && Representable(CriteriaJson(r))
    ensures CriteriaHash(sha, q) == CriteriaHash(sha, r) <==> SameCriteria(q, r)
  {
    hide CriteriaJson, Representable, WholeNumbers, SameCriteria, Supported, Same;
    CriteriaRepresentable(q);
    CriteriaRepresentable(r);
    CriteriaSupported(q);
    SameCriteriaJson(q, r);
    HashPins(sha, CriteriaJson(q), CriteriaJson(r));
  }

  /** A collision-free hash of the encoding identifies the value. */
  lemma HashPins(sha: Hasher, v: Json, w: Json)
    requires CollisionFree(sha) && Representable(v) && Representable(w) && Supported(v)
    ensures HashOf(sha, v) == HashOf(sha, w) <==> Same(v, w)
  {
    hide Encode, Same, Supported, Representable;
    EncodePrintsCanon(v);
    EncodingIsIdentity(v, w);
  }

  // ------------------------------------------------------------------ the columns a statistics hash pins

  /** A measure is listed by name. */
  ghost predicate Lists(ps: seq<(Text, MeasureStats)>, x: Text) { exists i :: 0 <= i < |ps| && ps[i].0 == x }

  lemma SameNamesThere(p: seq<(Text, MeasureStats)>, r: seq<(Text, MeasureStats)>, x: Text)
    requires Same(Obj(MeasureMembers(p)), Obj(MeasureMembers(r)))
    ensures Lists(p, x) <==> Lists(r, x)
  {
    NamedMembers(p);
    NamedMembers(r);
    hide Same, MeasureMembers;
    var a, b := MeasureMembers(p), MeasureMembers(r);
    if Lists(p, x) {
      var i :| 0 <= i < |p| && p[i].0 == x;
      var j := SameMemberIn(Obj(a), Obj(b), i);
      assert r[j].0 == x;
    }
    if Lists(r, x) {
      var j :| 0 <= j < |r| && r[j].0 == x;
      var i := SameMemberOf(Obj(a), Obj(b), j);
      assert p[i].0 == x;
    }
  }

  lemma NamedMembers(p: seq<(Text, MeasureStats)>)
    ensures var a := MeasureMembers(p); forall i :: 0 <= i < |a| ==> a[i].key == p[i].0 && a[i].value != Undefined
  {
  }

  lemma SameStatsNames(s: AggregateStats, t: AggregateStats, x: Text)
    requires Same(StatsJson(s), StatsJson(t))
    ensures Lists(s.perMeasure, x) <==> Lists(t.perMeasure, x)
  {
    StatsMembers(s);
    StatsMembers(t);
    StatsKeysDiffer();
    assert JsonNumber(s.totalPopulation) != Undefined && JsonNumber(s.totalPop18plus) != Undefined;
    assert JsonNumber(t.totalPopulation) != Undefined && JsonNumber(t.totalPop18plus) != Undefined;
    hide *;
    FiveDistinct(StatsJson(t).members);
    FiveAligned(StatsJson(s).members, StatsJson(t).members);
    SameNamesThere(s.perMeasure, t.perMeasure, x);
  }

  lemma ListsColumn(tracts: seq<Tract>, columns: seq<Text>, x: Text)
    ensures Lists(Stats(tracts, columns).perMeasure, x) <==> x in columns
  {
    PerMeasureFacts(tracts, columns);
    var r := PerMeasure(tracts, columns);
    hide PerMeasure, StatsFor;
    if Lists(r, x) {
      var i :| 0 <= i < |r| && r[i].0 == x;
      assert r[i] in r;
    }
    if x in columns {
      assert (x, StatsFor(tracts, x)) in r;
      var i :| 0 <= i < |r| && r[i] == (x, StatsFor(tracts, x));
      assert r[i].0 == x;
    }
  }

  /** Over one slice, two column lists share a statistics hash exactly when they name the same columns. */
  lemma StatsHashPinsColumns(sha: Hasher, tracts: seq<Tract>, c: seq<Text>, d: seq<Text>)
    requires CollisionFree(sha) && Texts(c) && Texts(d)
    ensures Representable(StatsJson(Stats(tracts, c))) && Representable(StatsJson(Stats(tracts, d)))
    ensures StatsHash(sha, Stats(tracts, d)).Some? ==>
      (StatsHash(sha, Stats(tracts, c)) == StatsHash(sha, Stats(tracts, d)) <==> forall x :: x in c <==> x in d)
  {
    StatsOk(tracts, c);
    StatsOk(tracts, d);
    var s, t := Stats(tracts, c), Stats(tracts, d);
    EncodePrintsCanon(StatsJson(t));
    hide Stats, StatsJson, Same, Representable, Supported, Encode;
    if forall x :: x in c <==> x in d {
      StatsHashIgnoresOrder(sha, tracts, tracts, c, d);
    }
    if StatsHash(sha, s) == StatsHash(sha, t) && StatsHash(sha, t).Some? {
      HashPins(sha, StatsJson(t), StatsJson(s));
      forall x ensures x in c <==> x in d {
        SameStatsNames(t, s, x);
        ListsColumn(tracts, c, x);
        ListsColumn(tracts, d, x);
      }
    }
  }

  // ------------------------------------------------------------------ both commitments at once

  /** `statsCommitment`: the two hashes, or nothing when either preimage has no canonical form. */
  function StatsCommitment(sha: Hasher, stats: AggregateStats, q: Query): Option<(Text, Text)>
    requires QueryOk(q) && Representable(StatsJson(stats))
  {
    CriteriaRepresentable(q);
    match (StatsHash(sha, stats), CriteriaHash(sha, q))
    case (Some(s), Some(c)) => Some((s, c))
    case _ => None
  }
}
