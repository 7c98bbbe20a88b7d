/** The list price of a slice: what is charged depends on the set of measures bought, not on how they are listed. */
module Pricing {
  import opened Sorting
  import opened Canonical
  import opened Places
  import Settlement

  datatype RateCard = RateCard(
    baseCents: nat, perTractMicroCents: nat, perStandardColumnCents: nat, perPremiumColumnCents: nat,
      vintageMultiplierBps: nat)

  datatype Price = Price(
    tractCount: nat, base: nat, tracts: nat, standardColumns: nat, premiumColumns: nat, subtotal: nat, listCents: nat,
    listAmountMinor: nat)

  predicate Premium(c: Text) { c == DIABETES || c == BPHIGH || c == CHD || c == DEPRESSION }

  predicate Standard(c: Text) { c == OBESITY || c == CSMOKING || c == ACCESS2 || c == SLEEP }

  /** `Math.floor(x + 0.5)` of a quotient. */
  function RoundHalfUp(x: real): int { (x + 0.5).Floor }

  function PremiumSet(columns: seq<Text>): set<Text> { set c | c in columns && Premium(c) }

  function StandardSet(columns: seq<Text>): set<Text> { set c | c in columns && Standard(c) }

  ghost predicate AllSold(columns: seq<Text>) { forall c :: c in columns ==> Premium(c) || Standard(c) }

  /** `r` is the quotient rounded to the nearest, a half upwards. */
  predicate Rounded(r: nat, n: nat, d: nat) { 2 * r * d <= 2 * n + d < 2 * r * d + 2 * d }

  lemma RoundThousandth(x: nat)
    ensures RoundHalfUp(x as real / 1000.0) == (x + 500) / 1000 && Rounded((x + 500) / 1000, x, 1000)
  {
  }

  lemma RoundBasisPoints(x: nat)
    ensures RoundHalfUp(x as real / 10_000.0) == (x + 5000) / 10_000 && Rounded((x + 5000) / 10_000, x, 10_000)
  {
  }

  /** Subtotal and list price for a number of standard and premium measures. */
  function Subtotal(tractCount: nat, standard: nat, premium: nat, t: RateCard): nat {
    t.baseCents + (tractCount * t.perTractMicroCents + 500) / 1000
      + standard * t.perStandardColumnCents + premium * t.perPremiumColumnCents
  }

  function ListCents(tractCount: nat, standard: nat, premium: nat, t: RateCard): nat {
    (Subtotal(tractCount, standard, premium, t) * t.vintageMultiplierBps + 5000) / 10_000
  }

  /** Nothing when some column is not sold; otherwise each distinct measure is charged once, by tier. */
  method PriceQuery(tractCount: nat, input: seq<Text>, t: RateCard) returns (r: Option<Price>)
    ensures r.Some? <==> forall c :: c in input ==> Premium(c) || Standard(c)
    ensures r.Some? ==>
      && r.value.listCents == ListCents(tractCount, |StandardSet(input)|, |PremiumSet(input)|, t)
      && r.value.subtotal == Subtotal(tractCount, |StandardSet(input)|, |PremiumSet(input)|, t)
      && r.value.tractCount == tractCount && r.value.base == t.baseCents
      && Rounded(r.value.tracts, tractCount * t.perTractMicroCents, 1000)
      && r.value.standardColumns == |StandardSet(input)| * t.perStandardColumnCents
      && r.value.premiumColumns == |PremiumSet(input)| * t.perPremiumColumnCents
      && r.value.subtotal == r.value.base + r.value.tracts + r.value.standardColumns + r.value.premiumColumns
      && Rounded(r.value.listCents, r.value.subtotal * t.vintageMultiplierBps, 10_000)
      && Settlement.UsdcBaseUnits(Settlement.PriceText(r.value.listCents)) == Some(r.value.listAmountMinor)
  {
    hide Premium, Standard;
    var columns := Dedup(input);
    var premium: nat, standard: nat := 0, 0;
    assert columns[..0] == [] && PremiumSet([]) == {} && StandardSet([]) == {};
    SameSets(columns, input);
    hide PremiumSet, StandardSet;
    for k := 0 to |columns|
      invariant AllSold(columns[..k])
      invariant premium == |PremiumSet(columns[..k])| && standard == |StandardSet(columns[..k])|
    {
      assert columns[..k + 1] == columns[..k] + [columns[k]];
      if !Premium(columns[k]) && !Standard(columns[k]) { return None; }
      CountOne(columns[..k], columns[k]);
      if Premium(columns[k]) { premium := premium + 1; } else { standard := standard + 1; }
    }
    assert columns[..|columns|] == columns;
    hide *;
    RoundThousandth(tractCount * t.perTractMicroCents);
    var tracts := RoundHalfUp((tractCount * t.perTractMicroCents) as real / 1000.0);
    var subtotal := t.baseCents + tracts + standard * t.perStandardColumnCents + premium * t.perPremiumColumnCents;
    SubtotalIs(tractCount, standard, premium, t);
    RoundBasisPoints(subtotal * t.vintageMultiplierBps);
    var listCents := RoundHalfUp((subtotal * t.vintageMultiplierBps) as real / 10_000.0);
    ListCentsIs(tractCount, standard, premium, t);
    r := Some(Price(tractCount, t.baseCents, tracts, standard * t.perStandardColumnCents,
      premium * t.perPremiumColumnCents,
      subtotal, listCents, Settlement.ListAmountMinor(listCents)));
    PriceSays(r.value, tractCount, standard, premium, t);
  }

  lemma PriceSays(p: Price, tractCount: nat, standard: nat, premium: nat, t: RateCard)
    requires p == Price(tractCount, t.baseCents, (tractCount * t.perTractMicroCents + 500) / 1000,
      standard * t.perStandardColumnCents, premium * t.perPremiumColumnCents,
      Subtotal(tractCount, standard, premium, t), ListCents(tractCount, standard, premium, t),
      Settlement.ListAmountMinor(ListCents(tractCount, standard, premium, t)))
    ensures Rounded(p.tracts, tractCount * t.perTractMicroCents, 1000)
    ensures Rounded(p.listCents, p.subtotal * t.vintageMultiplierBps, 10_000)
    ensures p.subtotal == p.base + p.tracts + p.standardColumns + p.premiumColumns
    ensures Settlement.UsdcBaseUnits(Settlement.PriceText(p.listCents)) == Some(p.listAmountMinor)
  {
    RoundThousandth(tractCount * t.perTractMicroCents);
    RoundBasisPoints(Subtotal(tractCount, standard, premium, t) * t.vintageMultiplierBps);
    SubtotalIs(tractCount, standard, premium, t);
    ListCentsIs(tractCount, standard, premium, t);
    Settlement.PriceRoundTrip(p.listCents);
    hide *;
  }

  lemma SubtotalIs(tractCount: nat, standard: nat, premium: nat, t: RateCard)
    ensures Subtotal(tractCount, standard, premium, t) == t.baseCents + (tractCount * t.perTractMicroCents + 500) / 1000
      + standard * t.perStandardColumnCents + premium * t.perPremiumColumnCents
  {
  }

  lemma ListCentsIs(tractCount: nat, standard: nat, premium: nat, t: RateCard)
    ensures ListCents(tractCount, standard, premium, t) ==
      (Subtotal(tractCount, standard, premium, t) * t.vintageMultiplierBps + 5000) / 10_000
  {
  }

  /** `[...new Set(columns)]`. */
  method Dedup(input: seq<Text>) returns (columns: seq<Text>)
    ensures forall c :: c in columns <==> c in input
    ensures forall i, j :: 0 <= i < j < |columns| ==> columns[i] != columns[j]
  {
    columns := [];
    for k := 0 to |input|
      invariant forall c :: c in columns <==> c in input[..k]
      invariant forall i, j :: 0 <= i < j < |columns| ==> columns[i] != columns[j]
    {
      assert input[..k + 1] == input[..k] + [input[k]];
      if input[k] !in columns { columns := columns + [input[k]]; }
    }
    assert input[..|input|] == input;
  }

  lemma CountOne(before: seq<Text>, c: Text)
    requires c !in before
    ensures |PremiumSet(before + [c])| == |PremiumSet(before)| + if Premium(c) then 1 else 0
    ensures Premium(c) ==> StandardSet(before + [c]) == StandardSet(before)
    ensures !Premium(c) && Standard(c) ==> |StandardSet(before + [c])| == |StandardSet(before)| + 1
  {
    TiersDisjoint(c);
    OneMore(before, c);
    hide *;
    NotYet(before, c);
  }

  lemma SameSets(a: seq<Text>, b: seq<Text>)
    requires forall c :: c in a <==> c in b
    ensures PremiumSet(a) == PremiumSet(b) && StandardSet(a) == StandardSet(b) && (AllSold(a) <==> AllSold(b))
  {
    hide Premium, Standard;
  }

  lemma OneMore(before: seq<Text>, c: Text)
    ensures PremiumSet(before + [c]) == if Premium(c) then PremiumSet(before) + {c} else PremiumSet(before)
    ensures StandardSet(before + [c]) == if Standard(c) then StandardSet(before) + {c} else StandardSet(before)
  {
    hide Premium, Standard;
  }

  lemma NotYet(before: seq<Text>, c: Text)
    requires c !in before
    ensures c !in PremiumSet(before) && c !in StandardSet(before)
  {
  }

  lemma TiersDisjoint(c: Text)
    ensures !(Premium(c) && Standard(c))
  {
    assert |DIABETES| == 8 && |BPHIGH| == 6 && |CHD| == 3 && |DEPRESSION| == 10;
    assert |OBESITY| == 7 && |CSMOKING| == 8 && |ACCESS2| == 7 && |SLEEP| == 5;
    assert DIABETES[0] == 'D' as int && CSMOKING[0] == 'C' as int;
  }

  /** Listing the measures differently never changes the price, and a wider order never costs less. */
  lemma PriceMonotone(m: nat, n: nat, c: seq<Text>, d: seq<Text>, t: RateCard)
    requires m <= n && forall x :: x in c ==> x in d
    ensures ListCents(m, |StandardSet(c)|, |PremiumSet(c)|, t) <= ListCents(n, |StandardSet(d)|, |PremiumSet(d)|, t)
    ensures m == n && (forall x :: x in d ==> x in c) ==>
      ListCents(m, |StandardSet(c)|, |PremiumSet(c)|, t) == ListCents(n, |StandardSet(d)|, |PremiumSet(d)|, t)
  {
    hide Premium, Standard;
    SubsetSize(StandardSet(c), StandardSet(d));
    SubsetSize(PremiumSet(c), PremiumSet(d));
    var s, s', p, p' := |StandardSet(c)|, |StandardSet(d)|, |PremiumSet(c)|, |PremiumSet(d)|;
    Times(m, n, t.perTractMicroCents);
    Divide(m * t.perTractMicroCents + 500, n * t.perTractMicroCents + 500, 1000);
    Times(s, s', t.perStandardColumnCents);
    Times(p, p', t.perPremiumColumnCents);
    Times(Subtotal(m, s, p, t), Subtotal(n, s', p', t), t.vintageMultiplierBps);
    Divide(Subtotal(m, s, p, t) * t.vintageMultiplierBps + 5000, Subtotal(n, s', p',
      t) * t.vintageMultiplierBps + 5000, 10_000);
    if m == n && forall x :: x in d ==> x in c {
      assert StandardSet(c) == StandardSet(d) && PremiumSet(c) == PremiumSet(d);
    }
  }

  lemma Times(a: nat, b: nat, k: nat)
    requires a <= b
    ensures a * k <= b * k
  {
  }

  lemma Divide(a: nat, b: nat, n: nat)
    requires a <= b && n > 0
    ensures a / n <= b / n
  {
    var p, q := a / n, b / n;
    assert a == p * n + a % n && b == q * n + b % n;
    if p > q { Times(q + 1, p, n); }
  }
}
