/** The file a buyer downloads: how rows are serialized, and what reading it back yields. */
module Deliverable {
  import opened Sorting
  import opened Decimal
  import opened Canonical
  import opened Places
  import opened Allocation
  import opened Csv
  import opened Synth
  import Settlement

  // ------------------------------------------------------------------ column names

  const HAS_DIABETES := Settlement.Chars("has_diabetes")
  const HAS_HIGH_BP := Settlement.Chars("has_high_bp")
  const HAS_CHD := Settlement.Chars("has_chd")
  const HAS_DEPRESSION := Settlement.Chars("has_depression")
  const IS_OBESE := Settlement.Chars("is_obese")
  const IS_CURRENT_SMOKER := Settlement.Chars("is_current_smoker")
  const IS_UNINSURED := Settlement.Chars("is_uninsured_18_64")
  const SHORT_SLEEP := Settlement.Chars("short_sleep")

  const PERSON_ID := Settlement.Chars("synthetic_person_id")
  const TRACT_FIPS := Settlement.Chars("source_tract_fips")
  const COUNTY_NAME := Settlement.Chars("source_county_name")
  const STATE_ABBR := Settlement.Chars("source_state_abbr")
  const AGE_BAND := Settlement.Chars("age_band")
  const IS_SYNTHETIC := Settlement.Chars("is_synthetic")

  /** The deliverable's name for a measure; one it does not know is lower-cased. */
  function ColumnName(c: Text): Text {
    if c == DIABETES then HAS_DIABETES
    else if c == BPHIGH then HAS_HIGH_BP
    else if c == CHD then HAS_CHD
    else if c == DEPRESSION then HAS_DEPRESSION
    else if c == OBESITY then IS_OBESE
    else if c == CSMOKING then IS_CURRENT_SMOKER
    else if c == ACCESS2 then IS_UNINSURED
    else if c == SLEEP then SHORT_SLEEP
    else Settlement.Lower(c)
  }

  // ------------------------------------------------------------------ rows

  function Names(columns: seq<Text>): seq<Text> {
    seq(|columns|, i requires 0 <= i < |columns| => ColumnName(columns[i]))
  }

  function DeliverableHeader(columns: seq<Text>): seq<Text> {
    [PERSON_ID, TRACT_FIPS, COUNTY_NAME, STATE_ABBR, AGE_BAND] + Names(columns) + [IS_SYNTHETIC]
  }

  function AllPlain(fields: seq<Text>): (r: seq<Cell>)
    ensures |r| == |fields|
  {
    seq(|fields|, i requires 0 <= i < |fields| => Plain(fields[i]))
  }

  function FlagTexts(p: Person, columns: seq<Text>): seq<Text> {
    seq(|columns|, i requires 0 <= i < |columns| => Print(if columns[i] in p.flags then p.flags[columns[i]] else 0))
  }

  /** Only the county name is quoted. */
  function PersonCells(p: Person, columns: seq<Text>): (r: seq<Cell>)
    ensures r != []
  {
    [Plain(p.id), Plain(p.fips), Quoted(p.county), Plain(p.state), Plain(p.ageBand)]
      + AllPlain(FlagTexts(p, columns)) + [Plain(TRUE_CELL)]
  }

  function Fields(p: Person, columns: seq<Text>): seq<Text> {
    [p.id, p.fips, p.county, p.state, p.ageBand] + FlagTexts(p, columns) + [TRUE_CELL]
  }

  function Rows(people: seq<Person>, columns: seq<Text>): (r: seq<seq<Cell>>)
    ensures |r| == |people| + 1 && forall i :: 0 <= i < |r| ==> r[i] != []
  {
    [AllPlain(DeliverableHeader(columns))]
      + seq(|people|, i requires 0 <= i < |people| => PersonCells(people[i], columns))
  }

  function CsvText(people: seq<Person>, columns: seq<Text>): Text { TextOf(Rows(people, columns)) }

  function Join(lines: seq<Text>, sep: Text): Text
    requires lines != []
  {
    if |lines| == 1 then lines[0] else lines[0] + (sep + Join(lines[1..], sep))
  }

  lemma {:induction false} JoinIsFile(lines: seq<Text>)
    requires lines != []
    ensures Join(lines, [NEWLINE]) + [NEWLINE] == FileText(lines)
  {
    if |lines| == 1 {
      assert FileText(lines[1..]) == [];
      assert [NEWLINE] + FileText(lines[1..]) == [NEWLINE];
    } else {
      JoinIsFile(lines[1..]);
      var t := Join(lines[1..], [NEWLINE]);
      assert lines[0] + ([NEWLINE] + t) + [NEWLINE] == lines[0] + ([NEWLINE] + (t + [NEWLINE]));
    }
  }

  lemma RowsAre(people: seq<Person>, columns: seq<Text>)
    ensures var rows := Rows(people, columns);
      && rows[0] == AllPlain(DeliverableHeader(columns))
      && forall i :: 0 <= i < |people| ==> rows[i + 1] == PersonCells(people[i], columns)
  {
  }

  /** The first rows, as text. */
  ghost predicate Written(lines: seq<Text>, rows: seq<seq<Cell>>) {
    |lines| <= |rows| && forall i :: 0 <= i < |lines| ==> rows[i] != [] && lines[i] == RowText(rows[i])
  }

  lemma WritesNext(lines: seq<Text>, rows: seq<seq<Cell>>)
    requires Written(lines, rows) && |lines| < |rows| && rows[|lines|] != []
    ensures Written(lines + [RowText(rows[|lines|])], rows)
  {
    hide RowText;
  }

  lemma WritesFile(lines: seq<Text>, rows: seq<seq<Cell>>)
    requires Written(lines, rows) && lines != [] && |lines| == |rows|
    ensures (forall i :: 0 <= i < |rows| ==> rows[i] != []) && Join(lines, [NEWLINE]) + [NEWLINE] == TextOf(rows)
  {
    JoinIsFile(lines);
    hide RowText, FileText, Join;
    assert lines == seq(|rows|, i requires 0 <= i < |rows| => RowText(rows[i]));
  }

  // ------------------------------------------------------------------ reading it back

  /** Safe to write unquoted. */
  ghost predicate Tame(s: Text) { Bare(s) && OneLine(s) }

  /** Labels as the corpus publishes them; a county name may hold quotes and commas but no line break. */
  ghost predicate CleanTract(t: Tract) { Tame(t.tractFips) && Tame(t.stateAbbr) && OneLine(t.countyName) }

  ghost predicate CleanTracts(tracts: seq<Tract>) { forall i :: 0 <= i < |tracts| ==> CleanTract(tracts[i]) }

  ghost predicate CleanColumns(columns: seq<Text>) { forall i :: 0 <= i < |columns| ==> Tame(columns[i]) }

  ghost predicate CleanPerson(p: Person) {
    Tame(p.id) && Tame(p.fips) && OneLine(p.county) && Tame(p.state) && Tame(p.ageBand)
  }

  lemma DigitsTame(s: Text)
    requires AllDigits(s)
    ensures Tame(s)
  {
  }

  lemma ColumnNameTame(c: Text)
    ensures Tame(ColumnName(c)) <==> Tame(c)
  {
    LowerTame(c);
    MeasureNamesTame();
    MeasureKeysTame();
    hide Tame;
  }

  lemma LowerTame(c: Text)
    ensures Tame(Settlement.Lower(c)) <==> Tame(c)
  {
    if Tame(Settlement.Lower(c)) {
      forall i | 0 <= i < |c| ensures c[i] != QUOTE && c[i] != COMMA && c[i] != NEWLINE {
        assert Settlement.Lower(c)[i] == Settlement.LowerChar(c[i]);
      }
    }
  }

  lemma MeasureKeysTame()
    ensures Tame(DIABETES) && Tame(BPHIGH) && Tame(CHD) && Tame(DEPRESSION)
    ensures Tame(OBESITY) && Tame(CSMOKING) && Tame(ACCESS2) && Tame(SLEEP)
  {
  }

  lemma MeasureNamesTame()
    ensures Tame(HAS_DIABETES) && Tame(HAS_HIGH_BP) && Tame(HAS_CHD) && Tame(HAS_DEPRESSION)
    ensures Tame(IS_OBESE) && Tame(IS_CURRENT_SMOKER) && Tame(IS_UNINSURED) && Tame(SHORT_SLEEP)
  {
    PremiumNamesTame();
    StandardNamesTame();
    hide *;
  }

  lemma PremiumNamesTame()
    ensures Tame(HAS_DIABETES) && Tame(HAS_HIGH_BP) && Tame(HAS_CHD) && Tame(HAS_DEPRESSION)
  {
  }

  lemma StandardNamesTame()
    ensures Tame(IS_OBESE) && Tame(IS_CURRENT_SMOKER) && Tame(IS_UNINSURED) && Tame(SHORT_SLEEP)
  {
  }

  lemma FixedNamesTame()
    ensures Tame(PERSON_ID) && Tame(TRACT_FIPS) && Tame(COUNTY_NAME) && Tame(STATE_ABBR)
    ensures Tame(AGE_BAND) && Tame(IS_SYNTHETIC) && Tame(TRUE_CELL)
  {
    SourceNamesTame();
    hide PERSON_ID, TRACT_FIPS, COUNTY_NAME, STATE_ABBR;
  }

  lemma SourceNamesTame()
    ensures Tame(PERSON_ID) && Tame(TRACT_FIPS) && Tame(COUNTY_NAME) && Tame(STATE_ABBR)
  {
  }

  lemma PersonIsClean(draws: Draws, seed: Text, i: nat, t: Tract, columns: seq<Text>)
    ensures CleanPerson(PersonAt(draws, seed, i, t, columns)) <==> CleanTract(t)
  {
    DigitsTame(Padded(i + 1));
    assert Tame(SYN);
    assert Tame(RowId(i));
    assert Tame(YOUNG) && Tame(MIDDLE) && Tame(OLDER) && Tame(SENIOR);
  }

  lemma HeaderFilable(columns: seq<Text>)
    ensures var header := AllPlain(DeliverableHeader(columns));
      Writable(header) && Unbroken(header) <==> CleanColumns(columns)
  {
    FixedNamesTame();
    var header := AllPlain(DeliverableHeader(columns));
    forall k | 0 <= k < |columns| ensures header[k + 5] == Plain(ColumnName(columns[k])) {}
    forall k | 0 <= k < |columns| ensures Tame(ColumnName(columns[k])) <==> Tame(columns[k]) {
      ColumnNameTame(columns[k]);
    }
    hide ColumnName;
    if Writable(header) && Unbroken(header) {
      forall k | 0 <= k < |columns| ensures Tame(columns[k]) { assert Tame(header[k + 5].value); }
    }
  }

  lemma PersonFilable(p: Person, columns: seq<Text>)
    ensures Writable(PersonCells(p, columns)) && Unbroken(PersonCells(p, columns)) <==> CleanPerson(p)
  {
    FixedNamesTame();
    forall k | 0 <= k < |columns| ensures Tame(FlagTexts(p, columns)[k]) { DigitsTame(FlagTexts(p, columns)[k]); }
    var cells := PersonCells(p, columns);
    assert cells[0] == Plain(p.id) && cells[1] == Plain(p.fips) && cells[2] == Quoted(p.county) &&
      cells[3] == Plain(p.state) && cells[4] == Plain(p.ageBand);
    hide AllDigits;
  }

  lemma PersonValues(p: Person, columns: seq<Text>)
    ensures Values(PersonCells(p, columns)) == Fields(p, columns)
  {
  }

  lemma HeaderValues(columns: seq<Text>)
    ensures Values(AllPlain(DeliverableHeader(columns))) == DeliverableHeader(columns)
  {
    hide DeliverableHeader;
  }

  ghost predicate CleanPeople(people: seq<Person>) { forall i :: 0 <= i < |people| ==> CleanPerson(people[i]) }

  lemma RowsFilable(people: seq<Person>, columns: seq<Text>)
    ensures Filable(Rows(people, columns)) <==> CleanColumns(columns) && CleanPeople(people)
  {
    HeaderFilable(columns);
    var rows: seq<seq<Cell>> := Rows(people, columns);
    hide CleanPerson, CleanColumns, DeliverableHeader, Writable, Unbroken;
    forall i | 0 <= i < |people|
      ensures rows[i + 1] == PersonCells(people[i], columns)
      ensures Writable(rows[i + 1]) && Unbroken(rows[i + 1]) <==> CleanPerson(people[i])
    {
      PersonFilable(people[i], columns);
    }
    hide PersonCells;
    assert rows[0] == AllPlain(DeliverableHeader(columns));
    if CleanColumns(columns) && CleanPeople(people) {
      forall i | 0 <= i < |rows| ensures rows[i] != [] && Writable(rows[i]) && Unbroken(rows[i]) {
        if i > 0 { assert rows[i] == PersonCells(people[i - 1], columns); }
      }
    }
  }

  /** A file was read as the header and every field of every row, in order. */
  ghost predicate ReadsAs(read: seq<seq<Text>>, people: seq<Person>, columns: seq<Text>) {
    && |read| == |people| + 1 && read[0] == DeliverableHeader(columns)
    && forall i :: 1 <= i < |read| ==> read[i] == Fields(people[i - 1], columns)
  }

  /**
   Reading the deliverable recovers the header and every field of every row exactly when column names and labels can
   be written as they are: a quote or a comma outside the county name, or a line feed anywhere, costs the reader
   something.
   */
  lemma DeliverableReadsBackIff(people: seq<Person>, columns: seq<Text>)
    ensures ReadsAs(Read(CsvText(people, columns)), people, columns) <==>
      CleanColumns(columns) && CleanPeople(people)
  {
    var rows := Rows(people, columns);
    RowsFilable(people, columns);
    FileReadsBackIff(rows);
    HeaderValues(columns);
    hide Fields, PersonCells, CleanPeople, CleanColumns, DeliverableHeader, AllPlain, Read, Filable, Values, TextOf;
    forall i | 1 <= i < |rows| ensures Values(rows[i]) == Fields(people[i - 1], columns) {
      assert rows[i] == PersonCells(people[i - 1], columns);
      PersonValues(people[i - 1], columns);
    }
  }

  /** The name of a column in the header, and what a reader finds under it for a person. */
  ghost predicate ReadsColumn(read: seq<seq<Text>>, people: seq<Person>, j: nat, c: Text) {
    && (|read| > 0 ==> |read[0]| > 5 + j && read[0][5 + j] == ColumnName(c))
    && forall i :: 0 <= i < |people| && i + 1 < |read| ==>
         && |read[i + 1]| > 5 + j
         && (c in people[i].flags ==> read[i + 1][5 + j] == Print(people[i].flags[c]))
         && (c !in people[i].flags ==> read[i + 1][5 + j] == Print(0))
  }

  /** Cell by cell what the buyer reads: who each person is, one flag a column bought, and the mark at the end. */
  ghost predicate ReadsPeople(read: seq<seq<Text>>, people: seq<Person>, columns: seq<Text>) {
    && |read| == |people| + 1
    && (forall i :: 0 <= i < |people| ==>
          var row, p := read[i + 1], people[i];
          && |row| == |columns| + 6
          && row[0] == p.id && row[1] == p.fips && row[2] == p.county && row[3] == p.state && row[4] == p.ageBand
          && row[|columns| + 5] == Settlement.Chars("true"))
    && forall j :: 0 <= j < |columns| ==> ReadsColumn(read, people, j, columns[j])
  }

  /** The downloaded file, read back, holds what was generated, cell by cell. */
  lemma FileHoldsPeople(people: seq<Person>, columns: seq<Text>)
    requires CleanColumns(columns) && CleanPeople(people)
    ensures ReadsPeople(Read(CsvText(people, columns)), people, columns)
  {
    DeliverableReadsBackIff(people, columns);
    var read := Read(CsvText(people, columns));
    hide Read, CsvText, CleanColumns, CleanPeople;
    FieldCells(people, columns);
    HeaderCells(columns);
    hide Fields, DeliverableHeader;
    forall j | 0 <= j < |columns| ensures ReadsColumn(read, people, j, columns[j]) {}
  }

  lemma HeaderCells(columns: seq<Text>)
    ensures var h := DeliverableHeader(columns);
      |h| == |columns| + 6 && forall j :: 0 <= j < |columns| ==> h[5 + j] == ColumnName(columns[j])
  {
  }

  lemma FieldCells(people: seq<Person>, columns: seq<Text>)
    ensures forall i :: 0 <= i < |people| ==>
      var row, p := Fields(people[i], columns), people[i];
      && |row| == |columns| + 6
      && row[0] == p.id && row[1] == p.fips && row[2] == p.county && row[3] == p.state && row[4] == p.ageBand
      && row[|columns| + 5] == Settlement.Chars("true")
    ensures forall i, j :: 0 <= i < |people| && 0 <= j < |columns| ==>
      && (columns[j] in people[i].flags ==>
            Fields(people[i], columns)[5 + j] == Print(people[i].flags[columns[j]]))
      && (columns[j] !in people[i].flags ==> Fields(people[i], columns)[5 + j] == Print(0))
  {
  }

  method SerializeCsv(people: seq<Person>, columns: seq<Text>) returns (text: Text)
    ensures text == CsvText(people, columns)
    ensures CleanColumns(columns) && CleanPeople(people) ==> ReadsPeople(Read(text), people, columns)
  {
    RowsAre(people, columns);
    ghost var cells := Rows(people, columns);
    WritesNext([], cells);
    hide RowText, TextOf, Join, AllPlain, PersonCells, Rows, Written;
    var rows := [RowText(AllPlain(DeliverableHeader(columns)))];
    assert rows == [] + rows;
    for i := 0 to |people|
      invariant |rows| == i + 1 && Written(rows, cells)
    {
      WritesNext(rows, cells);
      rows := rows + [RowText(PersonCells(people[i], columns))];
    }
    WritesFile(rows, cells);
    text := Join(rows, [NEWLINE]) + [NEWLINE];
    if CleanColumns(columns) && CleanPeople(people) { FileHoldsPeople(people, columns); }
  }

  // ------------------------------------------------------------------ rows per tract, as a reader counts them

  /** The tract column of a file, header aside. */
  function TractColumn(read: seq<seq<Text>>): seq<Text>
    requires read != [] && forall i :: 1 <= i < |read| ==> |read[i]| > 1
  {
    seq(|read| - 1, i requires 0 <= i < |read| - 1 => read[i + 1][1])
  }

  function FipsOf(tracts: seq<Tract>, sources: seq<nat>): (r: seq<Text>)
    requires forall k :: 0 <= k < |sources| ==> sources[k] < |tracts|
    ensures |r| == |sources|
  {
    seq(|sources|, i requires 0 <= i < |sources| => tracts[sources[i]].tractFips)
  }

  lemma {:induction false} SourcedRows(tracts: seq<Tract>, sources: seq<nat>, t: nat)
    requires t < |tracts| && forall k :: 0 <= k < |sources| ==> sources[k] < |tracts|
    ensures multiset(FipsOf(tracts, sources))[tracts[t].tractFips] >= multiset(sources)[t]
  {
    if sources != [] {
      var k := |sources| - 1;
      SourcedRows(tracts, sources[..k], t);
      assert sources == sources[..k] + [sources[k]];
      assert FipsOf(tracts, sources) == FipsOf(tracts, sources[..k]) + [tracts[sources[k]].tractFips];
    }
  }

  /** A header and exactly `rowCount` rows, at least `floor` of them naming the FIPS of each tract. */
  ghost predicate Dense(read: seq<seq<Text>>, columns: seq<Text>, rowCount: int, tracts: seq<Tract>, floor: int) {
    && read != [] && |read| == rowCount + 1 && read[0] == DeliverableHeader(columns)
    && (forall i :: 1 <= i < |read| ==> |read[i]| == |columns| + 6)
    && forall t :: 0 <= t < |tracts| ==> multiset(TractColumn(read))[tracts[t].tractFips] >= floor
  }

  /**
   What the buyer reads in the downloaded file when a floor was promised: every generated row exactly when the
   labels of all tracts and the column names are clean, and then a dense file.
   */
  lemma DeliveredDensity(
      draws: Draws, tracts: seq<Tract>, rowCount: int, floor: int, seed: Text, columns: seq<Text>)
    requires People(draws, tracts, rowCount, Some(floor), seed, columns).Ok?
    ensures var people := People(draws, tracts, rowCount, Some(floor), seed, columns).value;
      var read := Read(CsvText(people, columns));
      && (ReadsAs(read, people, columns) <==> CleanTracts(tracts) && CleanColumns(columns))
      && (ReadsAs(read, people, columns) ==> Dense(read, columns, rowCount, tracts, floor))
  {
    SharesKept(draws, tracts, rowCount, floor, seed, columns);
    var sources := Sources(draws, tracts, rowCount, Some(floor), seed).value;
    hide *;
    SourcedDensity(draws, tracts, sources, seed, columns, floor);
  }

  lemma SharesKept(draws: Draws, tracts: seq<Tract>, rowCount: int, floor: int, seed: Text, columns: seq<Text>)
    requires People(draws, tracts, rowCount, Some(floor), seed, columns).Ok?
    ensures tracts != [] && floor >= 1 && Sources(draws, tracts, rowCount, Some(floor), seed).Ok?
    ensures var sources := Sources(draws, tracts, rowCount, Some(floor), seed).value;
      && |sources| == rowCount && (forall k :: 0 <= k < |sources| ==> sources[k] < |tracts|)
      && (forall t: nat :: t < |tracts| ==> TractShare(tracts, sources, t, floor))
      && People(draws, tracts, rowCount, Some(floor), seed, columns) ==
           Ok(PeopleFrom(draws, tracts, sources, seed, columns))
  {
    FloorAtLeastOne(draws, tracts, rowCount, floor, seed, columns);
    SourcesFit(draws, tracts, rowCount, floor, seed, columns);
    hide People, Sources;
    var sources := Sources(draws, tracts, rowCount, Some(floor), seed).value;
    forall t: nat | t < |tracts| ensures TractShare(tracts, sources, t, floor) {
      FloorKept(draws, tracts, rowCount, floor, seed, columns, t);
      SourcedRows(tracts, sources, t);
    }
    FloorKept(draws, tracts, rowCount, floor, seed, columns, 0);
  }

  lemma SourcedDensity(
      draws: Draws, tracts: seq<Tract>, sources: seq<nat>, seed: Text, columns: seq<Text>, floor: int)
    requires forall k :: 0 <= k < |sources| ==> sources[k] < |tracts|
    requires floor >= 1 && forall t: nat :: t < |tracts| ==> TractShare(tracts, sources, t, floor)
    ensures var people := PeopleFrom(draws, tracts, sources, seed, columns);
      var read := Read(CsvText(people, columns));
      && (ReadsAs(read, people, columns) <==> CleanTracts(tracts) && CleanColumns(columns))
      && (ReadsAs(read, people, columns) ==> Dense(read, columns, |sources|, tracts, floor))
  {
    var people := PeopleFrom(draws, tracts, sources, seed, columns);
    var read := Read(CsvText(people, columns));
    hide Read, CsvText, CleanPeople, CleanTracts, CleanColumns, ReadsAs, FipsOf, TractColumn, DeliverableHeader;
    hide PersonAt;
    DeliverableReadsBackIff(people, columns);
    EveryTractShows(draws, tracts, sources, seed, columns, floor);
    if ReadsAs(read, people, columns) {
      ReadTracts(draws, tracts, sources, seed, columns, read);
      forall t | 0 <= t < |tracts| ensures multiset(TractColumn(read))[tracts[t].tractFips] >= floor {
        assert TractShare(tracts, sources, t, floor);
      }
    }
  }

  /** At least `floor` of the sourced rows come from the tract, and as many name its FIPS. */
  predicate TractShare(tracts: seq<Tract>, sources: seq<nat>, t: nat, floor: int)
    requires t < |tracts| && forall k :: 0 <= k < |sources| ==> sources[k] < |tracts|
  {
    multiset(sources)[t] >= floor && multiset(FipsOf(tracts, sources))[tracts[t].tractFips] >= floor
  }

  lemma FloorAtLeastOne(draws: Draws, tracts: seq<Tract>, rowCount: int, floor: int, seed: Text, columns: seq<Text>)
    ensures People(draws, tracts, rowCount, Some(floor), seed, columns).Ok? ==> floor >= 1
  {
  }

  lemma SourcesFit(draws: Draws, tracts: seq<Tract>, rowCount: int, floor: int, seed: Text, columns: seq<Text>)
    requires People(draws, tracts, rowCount, Some(floor), seed, columns).Ok?
    ensures tracts != [] && Sources(draws, tracts, rowCount, Some(floor), seed).Ok?
    ensures var sources := Sources(draws, tracts, rowCount, Some(floor), seed).value;
      && (forall k :: 0 <= k < |sources| ==> sources[k] < |tracts|)
      && People(draws, tracts, rowCount, Some(floor), seed, columns) == Ok(PeopleFrom(draws, tracts, sources, seed,
        columns))
  {
    PeopleOk(draws, tracts, rowCount, Some(floor), seed, columns);
  }

  /** With a row for every tract, all people are clean exactly when all tracts are. */
  lemma EveryTractShows(
      draws: Draws, tracts: seq<Tract>, sources: seq<nat>, seed: Text, columns: seq<Text>, floor: int)
    requires forall k :: 0 <= k < |sources| ==> sources[k] < |tracts|
    requires floor >= 1 && forall t: nat :: t < |tracts| ==> TractShare(tracts, sources, t, floor)
    ensures CleanPeople(PeopleFrom(draws, tracts, sources, seed, columns)) <==> CleanTracts(tracts)
  {
    var people := PeopleFrom(draws, tracts, sources, seed, columns);
    hide CleanTract, CleanPerson, PersonAt;
    forall i | 0 <= i < |people| ensures CleanPerson(people[i]) <==> CleanTract(tracts[sources[i]]) {
      PersonIsClean(draws, seed, i, tracts[sources[i]], columns);
    }
    if CleanPeople(people) {
      forall t: nat | t < |tracts| ensures CleanTract(tracts[t]) {
        assert TractShare(tracts, sources, t, floor) && t in multiset(sources);
        var i :| 0 <= i < |sources| && sources[i] == t;
        assert CleanPerson(people[i]);
      }
    }
  }

  lemma ReadTracts(
      draws: Draws, tracts: seq<Tract>, sources: seq<nat>, seed: Text, columns: seq<Text>, read: seq<seq<Text>>)
    requires forall k :: 0 <= k < |sources| ==> sources[k] < |tracts|
    requires ReadsAs(read, PeopleFrom(draws, tracts, sources, seed, columns), columns)
    ensures read != [] && |read| == |sources| + 1 && read[0] == DeliverableHeader(columns)
    ensures (forall i :: 1 <= i < |read| ==> |read[i]| == |columns| + 6)
    ensures TractColumn(read) == FipsOf(tracts, sources)
  {
    var people := PeopleFrom(draws, tracts, sources, seed, columns);
    hide PersonAt, Fields, DeliverableHeader;
    forall i | 1 <= i < |read| ensures |read[i]| == |columns| + 6 && read[i][1] == FipsOf(tracts, sources)[i - 1] {
      PersonFips(draws, seed, i - 1, tracts[sources[i - 1]], columns);
      FieldsShape(people[i - 1], columns);
    }
  }

  lemma FieldsShape(p: Person, columns: seq<Text>)
    ensures |Fields(p, columns)| == |columns| + 6 && Fields(p, columns)[1] == p.fips
  {
  }

  lemma PersonFips(draws: Draws, seed: Text, i: nat, t: Tract, columns: seq<Text>)
    ensures PersonAt(draws, seed, i, t, columns).fips == t.tractFips
  {
  }
}
