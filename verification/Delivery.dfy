/**
 Delivery and its verification: the seller regenerates nothing it did not quote, and the buyer regenerates the
 file from the manifest and compares bytes.
 */
module Delivery {
  import opened Sorting
  import opened Canonical
  import opened Places
  import opened Commitments
  import opened Allocation
  import opened Csv
  import opened Synth
  import opened Deliverable
  import Settlement

  const ALGORITHM := Settlement.Chars("stratified-marginal-bernoulli/v2")

  datatype Density = Density(rowsPerTract: int, tractCount: nat, tractsWithRows: nat)

  datatype Manifest = Manifest(
    dealId: Text, criteriaHash: Text, sourceStatsHash: Text, quotedStatsHash: Option<Text>, statsMatchQuote: bool,
    rowCount: int, density: Option<Density>, columns: seq<Text>, header: seq<Text>, seed: Text, algorithm: Text,
    calibrated: bool, contentHash: Text)

  datatype Delivered = Delivered(manifest: Manifest, bytes: Text)

  datatype Failure = NothingMatches | Unhashable | SliceChanged | NotCalibrated | Generator(error: Error)

  datatype Outcome<+T> = Done(value: T) | Failed(failure: Failure)

  datatype Problem =
    | ReceivedHash | UnsupportedAlgorithm | InvalidDensity | RegeneratedHash
    | StatsHashDiffers | SliceDiffers | Uncalibrated

  datatype Verdict = Verdict(ok: bool, problems: seq<Problem>, regeneratedHash: Option<Text>)

  /** The seller's pre-delivery check on its own file; its statistics are not part of this model. */
  type Calibration = (seq<Person>, seq<Tract>, seq<Text>) -> bool

  // ------------------------------------------------------------------ generating

  function FipsSet(people: seq<Person>): set<Text> { set p | p in people :: p.fips }

  function ManifestFor(
      sha: Hasher, dealId: Text, q: Query, tracts: seq<Tract>, hashes: (Text, Text), quoted: Option<Text>,
      rowsPerTract: int, seed: Text, people: seq<Person>): Manifest
  {
    Manifest(dealId, hashes.1, hashes.0, quoted, true, rowsPerTract * |tracts|,
      Some(Density(rowsPerTract, |tracts|, |FipsSet(people)|)), q.columns, DeliverableHeader(q.columns), seed,
        ALGORITHM,
      true, sha(CsvText(people, q.columns)))
  }

  /** What `generateDelivery` produces. */
  function Generate(
      sha: Hasher, draws: Draws, calibration: Calibration, dealId: Text, q: Query, corpus: Corpus, rowsPerTract: int,
      seed: Text, quoted: Option<Text>): Outcome<Delivered>
    requires QueryOk(q)
  {
    var tracts := Slice(q, corpus.tracts);
    if tracts == [] then Failed(NothingMatches)
    else
      StatsOk(tracts, q.columns);
      match StatsCommitment(sha, Stats(tracts, q.columns), q)
      case None => Failed(Unhashable)
      case Some(hashes) =>
        if quoted.Some? && quoted.value != hashes.0 then Failed(SliceChanged)
        else
          match People(draws, tracts, rowsPerTract * |tracts|, Some(rowsPerTract), seed, q.columns)
          case Err(e) => Failed(Generator(e))
          case Ok(people) =>
            if !calibration(people, tracts, q.columns) then Failed(NotCalibrated)
            else Done(Delivered(
              ManifestFor(sha, dealId, q, tracts, hashes, quoted, rowsPerTract, seed, people),
              CsvText(people, q.columns)))
  }

  method GenerateDelivery(
      sha: Hasher, draws: Draws, calibration: Calibration, dealId: Text, q: Query, corpus: Corpus, rowsPerTract: int,
      seed: Text, quoted: Option<Text>)
    returns (r: Outcome<Delivered>)
    requires QueryOk(q)
    ensures r == Generate(sha, draws, calibration, dealId, q, corpus, rowsPerTract, seed, quoted)
  {
    hide QueryOk, Stats, Slice, StatsCommitment, People, CsvText, Representable, StatsJson, ManifestFor;
    var tracts, _ := EvaluateQuery(q, corpus);
    if tracts == [] { return Failed(NothingMatches); }
    var stats := AggregateMatched(tracts, q.columns);
    QueryColumns(q);
    StatsOk(tracts, q.columns);
    var commitment := StatsCommitment(sha, stats, q);
    if commitment.None? { return Failed(Unhashable); }
    var hashes := commitment.value;
    var statsMatchQuote := quoted.None? || quoted.value == hashes.0;
    if !statsMatchQuote { return Failed(SliceChanged); }
    var rowCount := rowsPerTract * |tracts|;
    var generated := GenerateSyntheticPeople(draws, tracts, rowCount, Some(rowsPerTract), seed, q.columns);
    if generated.Err? { return Failed(Generator(generated.error)); }
    var people := generated.value;
    var bytes := SerializeCsv(people, q.columns);
    if !calibration(people, tracts, q.columns) { return Failed(NotCalibrated); }
    return Done(Delivered(ManifestFor(sha, dealId, q, tracts, hashes, quoted, rowsPerTract, seed, people), bytes));
  }

  lemma QueryColumns(q: Query)
    requires QueryOk(q)
    ensures Texts(q.columns)
  {
  }

  /** A tract's FIPS is on some row exactly when the tract is in the slice, a row for each being promised. */
  lemma EveryFipsShows(
      draws: Draws, tracts: seq<Tract>, rowCount: int, floor: int, seed: Text, columns: seq<Text>)
    requires People(draws, tracts, rowCount, Some(floor), seed, columns).Ok?
    ensures FipsSet(People(draws, tracts, rowCount, Some(floor), seed, columns).value) ==
      set t | t in tracts :: t.tractFips
  {
    SharesKept(draws, tracts, rowCount, floor, seed, columns);
    var sources := Sources(draws, tracts, rowCount, Some(floor), seed).value;
    var people := PeopleFrom(draws, tracts, sources, seed, columns);
    hide People, Sources, PersonAt, FipsSet;
    forall i | 0 <= i < |people| ensures people[i].fips == tracts[sources[i]].tractFips {
      PersonFips(draws, seed, i, tracts[sources[i]], columns);
    }
    forall k: nat | k < |tracts| ensures k in sources {
      assert TractShare(tracts, sources, k, floor) && k in multiset(sources);
    }
    hide *;
    FipsShown(people, tracts, sources);
  }

  lemma FipsShown(people: seq<Person>, tracts: seq<Tract>, sources: seq<nat>)
    requires |people| == |sources| && forall k: nat :: k < |tracts| ==> k in sources
    requires forall i :: 0 <= i < |people| ==>
      sources[i] < |tracts| && people[i].fips == tracts[sources[i]].tractFips
    ensures FipsSet(people) == set t | t in tracts :: t.tractFips
  {
    forall t | t in tracts ensures t.tractFips in FipsSet(people) {
      var k: nat :| k < |tracts| && tracts[k] == t;
      assert k in sources;
      var i :| 0 <= i < |sources| && sources[i] == k;
      assert people[i] in people;
    }
    forall f | f in FipsSet(people) ensures exists t :: t in tracts && t.tractFips == f {
      var p :| p in people && p.fips == f;
      var i :| 0 <= i < |people| && people[i] == p;
      assert tracts[sources[i]] in tracts;
    }
  }

  /** The refusals in turn, and what is delivered when none applies. */
  lemma GenerateSteps(
      sha: Hasher, draws: Draws, calibration: Calibration, dealId: Text, q: Query, corpus: Corpus, rowsPerTract: int,
      seed: Text, quoted: Option<Text>)
    requires QueryOk(q) && Representable(StatsJson(Stats(Slice(q, corpus.tracts), q.columns)))
    requires Representable(CriteriaJson(q))
    ensures var r := Generate(sha, draws, calibration, dealId, q, corpus, rowsPerTract, seed, quoted);
      var tracts := Slice(q, corpus.tracts);
      var people := People(draws, tracts, rowsPerTract * |tracts|, Some(rowsPerTract), seed, q.columns);
      var stats, criteria := StatsHash(sha, Stats(tracts, q.columns)), CriteriaHash(sha, q);
      && (r.Done? <==>
            && tracts != [] && stats.Some? && criteria.Some? && (quoted.Some? ==> quoted == stats)
            && people.Ok? && calibration(people.value, tracts, q.columns))
      && (r.Done? ==> r.value == Delivered(
            ManifestFor(
              sha, dealId, q, tracts, (stats.value, criteria.value), quoted, rowsPerTract, seed, people.value),
            CsvText(people.value, q.columns)))
  {
    hide QueryOk, Stats, Slice, StatsHash, CriteriaHash, People, CsvText, Representable, StatsJson, CriteriaJson,
      ManifestFor;
  }

  /**
   A delivery is made exactly for a slice that is not empty, hashes as it was quoted, fits the bound on rows with at
   least one per tract, and whose file is calibrated; and the manifest says so.
   */
  lemma GenerateOutcome(
      sha: Hasher, draws: Draws, calibration: Calibration, dealId: Text, q: Query, corpus: Corpus, rowsPerTract: int,
      seed: Text, quoted: Option<Text>)
    requires QueryOk(q) && Representable(StatsJson(Stats(Slice(q, corpus.tracts), q.columns)))
    requires Representable(CriteriaJson(q))
    ensures var r := Generate(sha, draws, calibration, dealId, q, corpus, rowsPerTract, seed, quoted);
      var tracts := Slice(q, corpus.tracts);
      var people := People(draws, tracts, rowsPerTract * |tracts|, Some(rowsPerTract), seed, q.columns);
      var stats, criteria := StatsHash(sha, Stats(tracts, q.columns)), CriteriaHash(sha, q);
      && (r.Done? <==>
            && tracts != [] && stats.Some? && criteria.Some? && (quoted.Some? ==> quoted == stats)
            && 1 <= rowsPerTract && rowsPerTract * |tracts| <= 999_999
            && people.Ok? && calibration(people.value, tracts, q.columns))
      && (r.Done? ==>
            var m := r.value.manifest;
            && m.dealId == dealId && Some(m.criteriaHash) == criteria && Some(m.sourceStatsHash) == stats
            && m.quotedStatsHash == quoted && m.statsMatchQuote && m.calibrated
            && m.columns == q.columns && m.header == DeliverableHeader(q.columns) && m.seed == seed
            && m.algorithm == Settlement.Chars("stratified-marginal-bernoulli/v2")
            && m.rowCount == rowsPerTract * |tracts|
            && m.density == Some(Density(rowsPerTract, |tracts|, |set t | t in tracts :: t.tractFips|))
            && m.contentHash == sha(r.value.bytes))
  {
    var tracts := Slice(q, corpus.tracts);
    PeopleOutcome(draws, tracts, rowsPerTract * |tracts|, Some(rowsPerTract), seed, q.columns);
    var people := People(draws, tracts, rowsPerTract * |tracts|, Some(rowsPerTract), seed, q.columns);
    if people.Ok? { EveryFipsShows(draws, tracts, rowsPerTract * |tracts|, rowsPerTract, seed, q.columns); }
    assert ALGORITHM == Settlement.Chars("stratified-marginal-bernoulli/v2");
    GenerateSteps(sha, draws, calibration, dealId, q, corpus, rowsPerTract, seed, quoted);
    hide *;
    hide ALGORITHM;
    WhatManifestSays(sha, dealId, q, tracts, quoted, rowsPerTract, seed);
  }

  lemma WhatManifestSays(
      sha: Hasher, dealId: Text, q: Query, tracts: seq<Tract>, quoted: Option<Text>, rowsPerTract: int, seed: Text)
    ensures forall hashes, people ::
      var m := ManifestFor(sha, dealId, q, tracts, hashes, quoted, rowsPerTract, seed, people);
      && m.dealId == dealId && m.criteriaHash == hashes.1 && m.sourceStatsHash == hashes.0
      && m.quotedStatsHash == quoted && m.statsMatchQuote && m.calibrated
      && m.columns == q.columns && m.header == DeliverableHeader(q.columns) && m.seed == seed
      && m.algorithm == ALGORITHM && m.rowCount == rowsPerTract * |tracts|
      && m.density == Some(Density(rowsPerTract, |tracts|, |FipsSet(people)|))
      && m.contentHash == sha(CsvText(people, q.columns))
  {
    hide CsvText, DeliverableHeader, FipsSet;
  }

  // ------------------------------------------------------------------ verifying

  predicate DensityOk(m: Manifest) { m.density.Some? && m.density.value.rowsPerTract >= 1 }

  function When(c: bool, p: Problem): seq<Problem> { if c then [p] else [] }

  /** What the buyer regenerates from the manifest. */
  function Regenerated(draws: Draws, m: Manifest, q: Query, corpus: Corpus): Result<Text>
    requires DensityOk(m)
  {
    match People(draws, Slice(q, corpus.tracts), m.rowCount, Some(m.density.value.rowsPerTract), m.seed, m.columns)
    case Err(e) => Err(e)
    case Ok(people) => Ok(CsvText(people, m.columns))
  }

  function SourceCommitment(sha: Hasher, m: Manifest, q: Query, corpus: Corpus): Option<(Text, Text)>
    requires QueryOk(q) && Texts(m.columns)
  {
    StatsOk(Slice(q, corpus.tracts), m.columns);
    StatsCommitment(sha, Stats(Slice(q, corpus.tracts), m.columns), q)
  }

  /** What `verifyDelivery` answers; the generator and the hash may refuse, which it does not catch. */
  function Verify(sha: Hasher, draws: Draws, m: Manifest, received: Text, q: Query, corpus: Corpus): Outcome<Verdict>
    requires QueryOk(q) && Texts(m.columns)
  {
    var first := When(sha(received) != m.contentHash, ReceivedHash);
    if m.algorithm != ALGORITHM || !DensityOk(m) then
      Done(Verdict(false,
        first + When(m.algorithm != ALGORITHM, UnsupportedAlgorithm) + When(!DensityOk(m), InvalidDensity), None))
    else
      match Regenerated(draws, m, q, corpus)
      case Err(e) => Failed(Generator(e))
      case Ok(text) =>
        match SourceCommitment(sha, m, q, corpus)
        case None => Failed(Unhashable)
        case Some(hashes) =>
          var problems := first + When(sha(text) != m.contentHash, RegeneratedHash)
            + When(hashes.0 != m.sourceStatsHash, StatsHashDiffers)
            + When(m.quotedStatsHash.Some? && m.quotedStatsHash.value != m.sourceStatsHash, SliceDiffers)
            + When(!m.calibrated, Uncalibrated);
          Done(Verdict(problems == [], problems, Some(sha(text))))
  }

  method VerifyDelivery(sha: Hasher, draws: Draws, m: Manifest, received: Text, q: Query, corpus: Corpus)
    returns (r: Outcome<Verdict>)
    requires QueryOk(q) && Texts(m.columns)
    ensures r == Verify(sha, draws, m, received, q, corpus)
  {
    hide QueryOk, Texts, Stats, Slice, StatsCommitment, People, CsvText, Representable, StatsJson, When;
    var problems := When(sha(received) != m.contentHash, ReceivedHash);
    var tracts, _ := EvaluateQuery(q, corpus);
    var supported, valid := m.algorithm == ALGORITHM, DensityOk(m);
    if !supported || !valid {
      problems := problems + When(!supported, UnsupportedAlgorithm) + When(!valid, InvalidDensity);
      return Done(Verdict(false, problems, None));
    }
    var generated := GenerateSyntheticPeople(draws, tracts, m.rowCount, Some(m.density.value.rowsPerTract), m.seed,
      m.columns);
    if generated.Err? { return Failed(Generator(generated.error)); }
    var text := SerializeCsv(generated.value, m.columns);
    problems := problems + When(sha(text) != m.contentHash, RegeneratedHash);
    var stats := AggregateMatched(tracts, m.columns);
    StatsOk(tracts, m.columns);
    var commitment := StatsCommitment(sha, stats, q);
    if commitment.None? { return Failed(Unhashable); }
    problems := problems + When(commitment.value.0 != m.sourceStatsHash, StatsHashDiffers);
    problems := problems + When(m.quotedStatsHash.Some? && m.quotedStatsHash.value != m.sourceStatsHash, SliceDiffers);
    problems := problems + When(!m.calibrated, Uncalibrated);
    return Done(Verdict(problems == [], problems, Some(sha(text))));
  }

  ghost predicate Verified(sha: Hasher, draws: Draws, m: Manifest, received: Text, q: Query, corpus: Corpus)
    requires QueryOk(q) && Texts(m.columns)
  {
    var r := Verify(sha, draws, m, received, q, corpus);
    r.Done? && r.value.ok
  }

  // ------------------------------------------------------------------ what a verdict means

  /** The verifier answers ok exactly when the bytes are the regeneration and the manifest's own claims hold. */
  lemma VerifiedIff(sha: Hasher, draws: Draws, m: Manifest, received: Text, q: Query, corpus: Corpus)
    requires QueryOk(q) && Texts(m.columns) && CollisionFree(sha)
    ensures Verified(sha, draws, m, received, q, corpus) <==>
      && m.algorithm == ALGORITHM && DensityOk(m) && m.calibrated
      && Regenerated(draws, m, q, corpus) == Ok(received) && m.contentHash == sha(received)
      && SourceCommitment(sha, m, q, corpus).Some?
      && SourceCommitment(sha, m, q, corpus).value.0 == m.sourceStatsHash
      && (m.quotedStatsHash.None? || m.quotedStatsHash == Some(m.sourceStatsHash))
  {
    hide Regenerated, SourceCommitment, QueryOk, Texts, ALGORITHM;
  }

  /** At most one file verifies under a manifest. */
  lemma OneFileVerifies(sha: Hasher, draws: Draws, m: Manifest, x: Text, y: Text, q: Query, corpus: Corpus)
    requires QueryOk(q) && Texts(m.columns) && CollisionFree(sha)
    requires Verified(sha, draws, m, x, q, corpus) && Verified(sha, draws, m, y, q, corpus)
    ensures x == y
  {
    VerifiedIff(sha, draws, m, x, q, corpus);
    VerifiedIff(sha, draws, m, y, q, corpus);
  }

  /**
   Soundness of the buyer's check, in terms of the file it holds: the bytes are the regeneration, whatever the labels.
   It reads as the regenerated people exactly when labels and column names are clean, and then it is dense.
   */
  lemma VerifiedFile(sha: Hasher, draws: Draws, m: Manifest, received: Text, q: Query, corpus: Corpus)
    requires QueryOk(q) && Texts(m.columns) && CollisionFree(sha)
    requires Verified(sha, draws, m, received, q, corpus)
    ensures DensityOk(m) && Regenerated(draws, m, q, corpus) == Ok(received)
    ensures var tracts, floor := Slice(q, corpus.tracts), m.density.value.rowsPerTract;
      var people, read := People(draws, tracts, m.rowCount, Some(floor), m.seed, m.columns), Read(received);
      && people.Ok?
      && (ReadsAs(read, people.value, m.columns) <==> CleanTracts(tracts) && CleanColumns(m.columns))
      && (ReadsAs(read, people.value, m.columns) ==> Dense(read, m.columns, m.rowCount, tracts, floor))
  {
    VerifiedIff(sha, draws, m, received, q, corpus);
    hide *;
    RegeneratedPeople(draws, m, q, corpus);
    DeliveredDensity(draws, Slice(q, corpus.tracts), m.rowCount, m.density.value.rowsPerTract, m.seed, m.columns);
  }

  lemma RegeneratedPeople(draws: Draws, m: Manifest, q: Query, corpus: Corpus)
    requires DensityOk(m) && Regenerated(draws, m, q, corpus).Ok?
    ensures var p := People(draws, Slice(q, corpus.tracts), m.rowCount, Some(m.density.value.rowsPerTract), m.seed,
      m.columns);
      p.Ok? && Regenerated(draws, m, q, corpus) == Ok(CsvText(p.value, m.columns))
    ensures m.density.Some? && m.density.value.rowsPerTract >= 1 && Slice(q, corpus.tracts) != []
  {
  }

  /** Completeness: whatever the seller generates, a buyer with the same corpus and query verifies without a problem. */
  lemma GeneratedVerifies(
      sha: Hasher, draws: Draws, calibration: Calibration, dealId: Text, q: Query, corpus: Corpus, rowsPerTract: int,
      seed: Text, quoted: Option<Text>)
    requires QueryOk(q)
    requires Generate(sha, draws, calibration, dealId, q, corpus, rowsPerTract, seed, quoted).Done?
    ensures var d := Generate(sha, draws, calibration, dealId, q, corpus, rowsPerTract, seed, quoted).value;
      && Texts(d.manifest.columns)
      && Verify(sha, draws, d.manifest, d.bytes, q, corpus) == Done(Verdict(true, [], Some(sha(d.bytes))))
      && d.manifest.rowCount == rowsPerTract * |Slice(q, corpus.tracts)|
  {
    hide QueryOk, Stats, Slice, Generate, People, CsvText, Texts, ALGORITHM, ManifestFor, Regenerated, SourceCommitment;
    QueryColumns(q);
    GeneratedParts(sha, draws, calibration, dealId, q, corpus, rowsPerTract, seed, quoted);
  }

  /** What the seller put into a delivery, as the buyer recomputes it. */
  lemma GeneratedParts(
      sha: Hasher, draws: Draws, calibration: Calibration, dealId: Text, q: Query, corpus: Corpus, rowsPerTract: int,
      seed: Text, quoted: Option<Text>)
    requires QueryOk(q) && Texts(q.columns)
    requires Generate(sha, draws, calibration, dealId, q, corpus, rowsPerTract, seed, quoted).Done?
    ensures var d := Generate(sha, draws, calibration, dealId, q, corpus, rowsPerTract, seed, quoted).value;
      && d.manifest.columns == q.columns && d.manifest.algorithm == ALGORITHM && d.manifest.calibrated
      && DensityOk(d.manifest) && d.manifest.contentHash == sha(d.bytes) && d.manifest.quotedStatsHash == quoted
      && Regenerated(draws, d.manifest, q, corpus) == Ok(d.bytes)
      && SourceCommitment(sha, d.manifest, q, corpus).Some?
      && SourceCommitment(sha, d.manifest, q, corpus).value.0 == d.manifest.sourceStatsHash
      && (quoted.Some? ==> quoted.value == d.manifest.sourceStatsHash)
      && d.manifest.rowCount == rowsPerTract * |Slice(q, corpus.tracts)|
  {
    var tracts := Slice(q, corpus.tracts);
    StatsOk(tracts, q.columns);
    GenerateShape(sha, draws, calibration, dealId, q, corpus, rowsPerTract, seed, quoted);
    hide QueryOk, Stats, Slice, Generate, StatsCommitment, People, CsvText, Representable, StatsJson, Texts, ALGORITHM;
    hide DeliverableHeader, FipsSet;
  }

  lemma GenerateShape(
      sha: Hasher, draws: Draws, calibration: Calibration, dealId: Text, q: Query, corpus: Corpus, rowsPerTract: int,
      seed: Text, quoted: Option<Text>)
    requires QueryOk(q) && Representable(StatsJson(Stats(Slice(q, corpus.tracts), q.columns)))
    requires Generate(sha, draws, calibration, dealId, q, corpus, rowsPerTract, seed, quoted).Done?
    ensures var tracts := Slice(q, corpus.tracts);
      var hashes := StatsCommitment(sha, Stats(tracts, q.columns), q);
      var people := People(draws, tracts, rowsPerTract * |tracts|, Some(rowsPerTract), seed, q.columns);
      && hashes.Some? && people.Ok? && rowsPerTract >= 1 && (quoted.Some? ==> quoted.value == hashes.value.0)
      && Generate(sha, draws, calibration, dealId, q, corpus, rowsPerTract, seed, quoted) == Done(Delivered(
           ManifestFor(sha, dealId, q, tracts, hashes.value, quoted, rowsPerTract, seed, people.value),
           CsvText(people.value, q.columns)))
  {
    var tracts := Slice(q, corpus.tracts);
    FloorAtLeastOne(draws, tracts, rowsPerTract * |tracts|, rowsPerTract, seed, q.columns);
    hide QueryOk, Stats, Slice, StatsCommitment, People, CsvText, Representable, StatsJson, ManifestFor;
  }

  // ------------------------------------------------------------------ what the verdict leaves to the quote

  /** The verdict, check by check. */
  lemma VerdictBy(sha: Hasher, draws: Draws, m: Manifest, received: Text, q: Query, corpus: Corpus)
    requires QueryOk(q) && Texts(m.columns)
    ensures Verified(sha, draws, m, received, q, corpus) <==>
      && sha(received) == m.contentHash && m.algorithm == ALGORITHM && DensityOk(m) && m.calibrated
      && Regenerated(draws, m, q, corpus).Ok? && sha(Regenerated(draws, m, q, corpus).value) == m.contentHash
      && SourceCommitment(sha, m, q, corpus).Some?
      && SourceCommitment(sha, m, q, corpus).value.0 == m.sourceStatsHash
      && (m.quotedStatsHash.None? || m.quotedStatsHash == Some(m.sourceStatsHash))
  {
    hide Regenerated, SourceCommitment, QueryOk, Texts, ALGORITHM;
  }

  /** The verdict reads the query only through the slice it selects: the purchased columns are the manifest's. */
  lemma VerdictReadsOnlyTheSlice(
      sha: Hasher, draws: Draws, m: Manifest, received: Text, q: Query, r: Query, corpus: Corpus)
    requires QueryOk(q) && QueryOk(r) && Texts(m.columns) && (WholeNumbers(q) <==> WholeNumbers(r))
    requires Slice(q, corpus.tracts) == Slice(r, corpus.tracts)
    ensures Verified(sha, draws, m, received, q, corpus) <==> Verified(sha, draws, m, received, r, corpus)
  {
    VerdictBy(sha, draws, m, received, q, corpus);
    VerdictBy(sha, draws, m, received, r, corpus);
    SourceStats(sha, m, q, corpus);
    SourceStats(sha, m, r, corpus);
    SameRegeneration(draws, m, q, r, corpus);
    hide *;
  }

  lemma SameRegeneration(draws: Draws, m: Manifest, q: Query, r: Query, corpus: Corpus)
    requires Slice(q, corpus.tracts) == Slice(r, corpus.tracts)
    ensures DensityOk(m) ==> Regenerated(draws, m, q, corpus) == Regenerated(draws, m, r, corpus)
  {
    hide People, CsvText, Slice;
  }

  lemma SourceStats(sha: Hasher, m: Manifest, q: Query, corpus: Corpus)
    requires QueryOk(q) && Texts(m.columns)
    ensures var stats := Stats(Slice(q, corpus.tracts), m.columns);
      && Representable(StatsJson(stats))
      && (SourceCommitment(sha, m, q, corpus).Some? <==> StatsHash(sha, stats).Some? && WholeNumbers(q))
      && (SourceCommitment(sha, m, q, corpus).Some? ==>
            SourceCommitment(sha, m, q, corpus).value.0 == StatsHash(sha, stats).value)
  {
    CriteriaHashable(sha, q);
    StatsOk(Slice(q, corpus.tracts), m.columns);
    hide Stats, Slice, StatsHash, CriteriaHash, Representable, StatsJson, CriteriaJson, WholeNumbers;
  }

  /**
   Holding the statistics hash of its own quote closes that gap: if the file verifies and the manifest repeats
   that hash, the file's columns are the purchased ones, up to order and repetition.
   */
  lemma QuotePinsColumns(sha: Hasher, draws: Draws, m: Manifest, received: Text, q: Query, corpus: Corpus)
    requires QueryOk(q) && Texts(m.columns) && CollisionFree(sha)
    requires Verified(sha, draws, m, received, q, corpus)
    ensures Representable(StatsJson(Stats(Slice(q, corpus.tracts), q.columns)))
    ensures Some(m.sourceStatsHash) == StatsHash(sha, Stats(Slice(q, corpus.tracts), q.columns)) <==>
      forall c :: c in m.columns <==> c in q.columns
  {
    QueryColumns(q);
    VerifiedIff(sha, draws, m, received, q, corpus);
    SourceStats(sha, m, q, corpus);
    StatsHashPinsColumns(sha, Slice(q, corpus.tracts), q.columns, m.columns);
    hide *;
  }

  // ------------------------------------------------------------------ seeds

  const BAR := '|' as int
  const VERSION := Settlement.Chars("|v2")

  function DeliverableSeed(sha: Hasher, secret: Text, dealId: Text): Text { sha(secret + [BAR] + dealId + VERSION) }

  /** Under one secret every deal has its own seed. */
  lemma SeedsDiffer(sha: Hasher, secret: Text, d: Text, e: Text)
    requires CollisionFree(sha)
    ensures DeliverableSeed(sha, secret, d) == DeliverableSeed(sha, secret, e) <==> d == e
  {
    var x, y := secret + [BAR] + d + VERSION, secret + [BAR] + e + VERSION;
    if x == y {
      assert |d| == |e|;
      assert x[|secret| + 1..|secret| + 1 + |d|] == d && y[|secret| + 1..|secret| + 1 + |e|] == e;
    }
  }
}
