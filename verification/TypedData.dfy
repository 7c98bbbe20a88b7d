/**
 Signing structs as they reach EIP-712: type strings, the word each field contributes, and what a digest pins of
 the struct that was signed.
 */
module TypedData {
  import opened Sorting
  import opened Decimal
  import opened Settlement

  type Text = seq<int>

  // ------------------------------------------------------------------ integers as `BigInt` reads them

  function TrimStart(s: Text): Text { if s != [] && Blank(s[0]) then TrimStart(s[1..]) else s }

  function TrimEnd(s: Text): Text { if s != [] && Blank(s[|s| - 1]) then TrimEnd(s[..|s| - 1]) else s }

  function Trim(s: Text): Text { TrimEnd(TrimStart(s)) }

  /** The number a non-empty run of digits of a radix up to sixteen spells. */
  function Radix(s: Text, radix: nat): Option<nat> {
    if s == [] then None
    else
      var d := Nibble(s[|s| - 1]);
      if d.None? || !(0 <= d.value < radix) then None
      else if |s| == 1 then Some(d.value)
      else (match Radix(s[..|s| - 1], radix) case None => None case Some(n) => Some(n * radix + d.value))
  }

  function Digits(s: Text): Option<nat> { if s != [] && AllDigits(s) then Some(Value(s)) else None }

  function Negated(o: Option<nat>): Option<int> {
    if o.None? then None
    else
      var n: int := o.value;
      Some(-n)
  }

  /** `BigInt(text)`: blank is zero; a prefix chooses hexadecimal, octal or binary; only decimals carry a sign. */
  function BigIntOf(text: Text): Option<int> {
    var s := Trim(text);
    if s == [] then Some(0)
    else if |s| > 1 && s[0] == '0' as int && s[1] in {'x' as int, 'X' as int} then Radix(s[2..], 16)
    else if |s| > 1 && s[0] == '0' as int && s[1] in {'o' as int, 'O' as int} then Radix(s[2..], 8)
    else if |s| > 1 && s[0] == '0' as int && s[1] in {'b' as int, 'B' as int} then Radix(s[2..], 2)
    else if s[0] == '-' as int then Negated(Digits(s[1..]))
    else if s[0] == '+' as int then Digits(s[1..])
    else Digits(s)
  }

  lemma DigitsAreRead(s: Text)
    requires s != [] && AllDigits(s)
    ensures BigIntOf(s) == Some(Value(s))
  {
    assert IsDigit(s[0]) && IsDigit(s[|s| - 1]);
    assert Trim(s) == s;
    assert |s| > 1 ==> IsDigit(s[1]);
    hide Value;
  }

  /** A number in the digits of a radix. */
  function Spelled(n: nat, radix: nat): (r: Text)
    requires 2 <= radix <= 16
    ensures r != []
    decreases n
  {
    if n < radix then [HexDigit(n)] else Spelled(n / radix, radix) + [HexDigit(n % radix)]
  }

  lemma RadixStep(s: Text, m: nat, d: nat, radix: nat)
    requires 2 <= radix <= 16 && d < radix && Radix(s, radix) == Some(m)
    ensures Radix(s + [HexDigit(d)], radix) == Some(m * radix + d)
  {
    NibbleReads(HexDigit(d), d);
    assert (s + [HexDigit(d)])[..|s|] == s;
  }

  lemma LastDigit(n: nat, radix: nat)
    requires 2 <= radix <= 16
    ensures n < radix ==> Spelled(n, radix) == [HexDigit(n)] && Radix([HexDigit(n)], radix) == Some(n)
    ensures n >= radix ==> n / radix < n && Spelled(n, radix) == Spelled(n / radix, radix) + [HexDigit(n % radix)]
  {
    if n < radix { NibbleReads(HexDigit(n), n); }
  }

  lemma {:induction false} RadixReads(n: nat, radix: nat)
    requires 2 <= radix <= 16
    ensures Radix(Spelled(n, radix), radix) == Some(n)
    decreases n
  {
    hide *;
    LastDigit(n, radix);
    if n >= radix {
      RadixReads(n / radix, radix);
      RadixStep(Spelled(n / radix, radix), n / radix, n % radix, radix);
    }
  }

  lemma EndsInDigit(n: nat, radix: nat)
    requires 2 <= radix <= 16
    ensures var s := Spelled(n, radix); !Blank(s[|s| - 1])
  {
  }

  lemma NothingTrimmed(s: Text)
    requires s != [] && !Blank(s[0]) && !Blank(s[|s| - 1])
    ensures Trim(s) == s
  {
  }

  lemma PrefixedDigits(n: nat, x: int, radix: nat)
    requires 2 <= radix <= 16
    ensures var digits := Spelled(n, radix); var s := ['0' as int, x] + digits;
      Trim(s) == s && |s| > 1 && s[0] == '0' as int && s[1] == x && s[2..] == digits && Radix(digits, radix) == Some(n)
  {
    RadixReads(n, radix);
    EndsInDigit(n, radix);
    NothingTrimmed(['0' as int, x] + Spelled(n, radix));
  }

  /** A prefix chooses the radix, in either case. */
  lemma PrefixChooses(n: nat, x: int)
    ensures x in {'x' as int, 'X' as int} ==> BigIntOf(['0' as int, x] + Spelled(n, 16)) == Some(n)
    ensures x in {'o' as int, 'O' as int} ==> BigIntOf(['0' as int, x] + Spelled(n, 8)) == Some(n)
    ensures x in {'b' as int, 'B' as int} ==> BigIntOf(['0' as int, x] + Spelled(n, 2)) == Some(n)
  {
    PrefixedDigits(n, x, 16);
    PrefixedDigits(n, x, 8);
    PrefixedDigits(n, x, 2);
    hide Trim, Spelled, Radix;
  }

  /** Only decimals carry a sign. */
  lemma SignsAreRead(s: Text)
    requires s != [] && AllDigits(s)
    ensures BigIntOf(['-' as int] + s) == Some(0 - Value(s)) && BigIntOf(['+' as int] + s) == Some(Value(s))
  {
    assert IsDigit(s[|s| - 1]);
    NothingTrimmed(['-' as int] + s);
    NothingTrimmed(['+' as int] + s);
    assert (['-' as int] + s)[1..] == s && (['+' as int] + s)[1..] == s;
    hide Value, Trim;
  }

  // ------------------------------------------------------------------ whose amount is in which unit

  datatype Struct = AgreementStruct | ActivationStruct

  /**
   The base units a struct's `amount` stands for: an Activation's is already base units, another struct's is the
   contract's decimal price unless base units are pinned beside it. The struct decides, never the spelling.
   */
  function AmountUnits(kind: Struct, pinned: Option<Text>, amount: Text): Option<int> {
    match kind
    case ActivationStruct => BigIntOf(if pinned.Some? then pinned.value else amount)
    case AgreementStruct =>
      if pinned.Some? then BigIntOf(pinned.value)
      else (match UsdcBaseUnits(amount) case None => None case Some(n) => Some(n))
  }

  method AmountWord(kind: Struct, pinned: Option<Text>, amount: Text) returns (r: Option<seq<Byte>>)
    ensures r.Some? <==>
      AmountUnits(kind, pinned, amount).Some? && 0 <= AmountUnits(kind, pinned, amount).value < TWO_256
    ensures r.Some? ==> |r.value| == 32 && FromBytes(r.value) == AmountUnits(kind, pinned, amount).value
  {
    var units := AmountUnits(kind, pinned, amount);
    if units.None? { return None; }
    r := WordUint(units.value);
  }

  /**
   The Agreement signed over a price and the Activation read back in base units carry one amount word exactly when
   the price is that many base units.
   */
  lemma AmountsMeet(price: Text, units: nat, v: seq<Byte>, w: seq<Byte>)
    requires |v| == |w|
    requires AmountUnits(AgreementStruct, None, price) == Some(FromBytes(v))
    requires AmountUnits(ActivationStruct, None, Print(units)) == Some(FromBytes(w))
    ensures v == w <==> UsdcBaseUnits(price) == Some(units)
  {
    DigitsAreRead(Print(units));
    ValueOfPrint(units);
    hide BigIntOf, UsdcBaseUnits, Value, FromBytes;
    if FromBytes(v) == FromBytes(w) { FromBytesInjective(v, w); }
  }

  /** An integer price is dollars, not base units: the two structs never read one non-zero integer alike. */
  lemma IntegerPriceIsDollars(s: Text)
    requires s != [] && AllDigits(s)
    ensures AmountUnits(AgreementStruct, None, s) == Some(Value(s) * 1_000_000)
    ensures AmountUnits(AgreementStruct, None, s) == AmountUnits(ActivationStruct, None, s) <==> Value(s) == 0
  {
    IntegerUnits(s);
    DigitsAreRead(s);
    hide UsdcBaseUnits, Value, BigIntOf;
  }

  lemma IntegerUnits(s: Text)
    requires s != [] && AllDigits(s)
    ensures UsdcBaseUnits(s) == Some(Value(s) * 1_000_000)
  {
    hide UsdcBaseUnits, Run;
    assert Spells(s, s, []);
    UsdcReadsSpelling(s, s, []);
    assert Value([]) * Pow10(6) == 0;
  }

  // ------------------------------------------------------------------ type strings

  const COMMA := ',' as int
  const SPACE := ' ' as int
  const OPEN := '(' as int
  const CLOSE := ')' as int

  /** Position of the first, and of the last, occurrence; -1 when there is none. */
  function IndexOf(s: Text, c: int): (i: int)
    ensures -1 <= i < |s|
  {
    if s == [] then -1 else if s[0] == c then 0
    else (var i := IndexOf(s[1..], c); if i < 0 then -1 else i + 1)
  }

  function LastIndexOf(s: Text, c: int): (i: int)
    ensures -1 <= i < |s|
  {
    if s == [] then -1 else if s[|s| - 1] == c then |s| - 1 else LastIndexOf(s[..|s| - 1], c)
  }

  function SplitOn(s: Text, c: int): (r: seq<Text>)
    ensures r != []
  {
    if s == [] then [[]]
    else
      var r := SplitOn(s[1..], c);
      if s[0] == c then [[]] + r else [[s[0]] + r[0]] + r[1..]
  }

  /** `slice(indexOf("(") + 1, lastIndexOf(")"))`; a missing bracket counts from the end. */
  function Inner(t: Text): Text {
    var from, to := IndexOf(t, OPEN) + 1, LastIndexOf(t, CLOSE);
    var end := if to < 0 then (if |t| > 0 then |t| - 1 else 0) else to;
    if from <= end then t[from..end] else []
  }

  /** A field's type and name. */
  type FieldSpec = (Text, Text)

  function FieldOf(piece: Text): Option<FieldSpec> {
    var parts := SplitOn(Trim(piece), SPACE);
    if |parts| < 2 || parts[0] == [] || parts[1] == [] then None else Some((parts[0], parts[1]))
  }

  function FieldsOf(pieces: seq<Text>): Option<seq<FieldSpec>> {
    if pieces == [] then Some([])
    else
      match (FieldOf(pieces[0]), FieldsOf(pieces[1..]))
      case (Some(f), Some(fs)) => Some([f] + fs)
      case _ => None
  }

  function ParseTypeString(t: Text): Option<seq<FieldSpec>> { FieldsOf(SplitOn(Inner(t), COMMA)) }

  ghost predicate Free(s: Text, c: int) { forall i :: 0 <= i < |s| ==> s[i] != c }

  /** A name or a type: not empty, no punctuation and no blank. */
  ghost predicate Word(s: Text) {
    s != [] && Free(s, COMMA) && Free(s, OPEN) && Free(s, CLOSE) && forall i :: 0 <= i < |s| ==> !Blank(s[i])
  }

  function FieldText(f: FieldSpec): Text { f.0 + ([SPACE] + f.1) }

  function FieldTexts(fs: seq<FieldSpec>): Text
    requires fs != []
  {
    if |fs| == 1 then FieldText(fs[0]) else FieldText(fs[0]) + ([COMMA] + FieldTexts(fs[1..]))
  }

  /** How a struct's type string is written. */
  function TypeString(name: Text, fs: seq<FieldSpec>): Text
    requires fs != []
  {
    name + ([OPEN] + (FieldTexts(fs) + [CLOSE]))
  }

  lemma {:induction false} SplitsFirst(a: Text, c: int, b: Text)
    requires Free(a, c)
    ensures SplitOn(a, c) == [a]
    ensures SplitOn(a + ([c] + b), c) == [a] + SplitOn(b, c)
  {
    var s := a + ([c] + b);
    if a == [] {
      assert s == [c] + b;
      assert s[1..] == b;
    } else {
      SplitsFirst(a[1..], c, b);
      assert s[1..] == a[1..] + ([c] + b);
      assert [a[0]] + a[1..] == a;
    }
  }

  lemma {:induction false} FirstIndex(a: Text, c: int, b: Text)
    requires Free(a, c)
    ensures IndexOf(a + ([c] + b), c) == |a|
  {
    if a != [] {
      assert (a + ([c] + b))[1..] == a[1..] + ([c] + b);
      FirstIndex(a[1..], c, b);
    }
  }

  lemma ReadsField(f: FieldSpec)
    requires Word(f.0) && Word(f.1)
    ensures FieldOf(FieldText(f)) == Some(f) && Free(FieldText(f), COMMA)
  {
    var s := FieldText(f);
    assert s[0] == f.0[0] && s[|s| - 1] == f.1[|f.1| - 1];
    assert Trim(s) == s;
    assert Free(f.0, SPACE) && Free(f.1, SPACE);
    SplitsFirst(f.0, SPACE, f.1);
    SplitsFirst(f.1, SPACE, []);
  }

  lemma {:induction false} ReadsFieldTexts(fs: seq<FieldSpec>)
    requires fs != [] && forall i :: 0 <= i < |fs| ==> Word(fs[i].0) && Word(fs[i].1)
    ensures FieldsOf(SplitOn(FieldTexts(fs), COMMA)) == Some(fs)
  {
    hide Word, FieldOf;
    ReadsField(fs[0]);
    if |fs| == 1 {
      SplitsFirst(FieldText(fs[0]), COMMA, []);
      var pieces := [FieldText(fs[0])];
      assert pieces[1..] == [] && FieldsOf(pieces[1..]) == Some([]);
      assert fs == [fs[0]] + [];
    } else {
      var rest := SplitOn(FieldTexts(fs[1..]), COMMA);
      SplitsFirst(FieldText(fs[0]), COMMA, FieldTexts(fs[1..]));
      ReadsFieldTexts(fs[1..]);
      var pieces := [FieldText(fs[0])] + rest;
      assert pieces[1..] == rest;
      assert fs == [fs[0]] + fs[1..];
    }
  }

  /** A type string parses to the fields it lists, as each of the profile's does. */
  lemma TypeStringParses(name: Text, fs: seq<FieldSpec>)
    requires Free(name, OPEN) && fs != [] && forall i :: 0 <= i < |fs| ==> Word(fs[i].0) && Word(fs[i].1)
    ensures ParseTypeString(TypeString(name, fs)) == Some(fs)
  {
    var t, inner := TypeString(name, fs), FieldTexts(fs);
    FirstIndex(name, OPEN, inner + [CLOSE]);
    assert LastIndexOf(t, CLOSE) == |t| - 1;
    assert t[|name| + 1..|t| - 1] == inner;
    hide IndexOf, LastIndexOf, Word, FieldTexts;
    ReadsFieldTexts(fs);
  }

  // ------------------------------------------------------------------ field words

  const AGREEMENT_ID := Chars("agreementId")
  const REASON_HASH := Chars("reasonHash")
  const REASON_CODE := Chars("reasonCode")
  const DECISION_ID := Chars("decisionId")
  const AMOUNT := Chars("amount")
  const AMOUNT_BASE_UNITS := Chars("amountBaseUnits")
  const ADDRESS := Chars("address")
  const BYTES32 := Chars("bytes32")
  const UINT := Chars("uint")
  const ACTIVATION_START := Chars("Activation(")
  const UNDEFINED := Chars("undefined")

  /** The struct's members as texts. */
  type Members = map<Text, Text>

  function Shown(s: Members, k: Text): Text { if k in s then s[k] else UNDEFINED }

  function Pinned(s: Members): Option<Text> {
    if AMOUNT_BASE_UNITS in s then Some(s[AMOUNT_BASE_UNITS]) else None
  }

  /** What a field says, however it is spelled. */
  datatype Meaning = Named(text: Text) | Number(n: nat) | Account(bytes: seq<Byte>) | Anchor(bytes: seq<Byte>)

  function NumberOf(n: Option<int>): Option<Meaning> {
    if n.Some? && 0 <= n.value < TWO_256 then Some(Number(n.value)) else None
  }

  function AccountOf(v: Text): Option<Meaning> {
    var raw := FromHex(v);
    if raw.Some? && |raw.value| == 20 then Some(Account(raw.value)) else None
  }

  function AnchorOf(v: Text): Option<Meaning> {
    var raw := WordBytes32(v);
    if raw.Some? then Some(Anchor(raw.value)) else None
  }

  /** `fieldWord` up to its encoding: three names are hashed texts, `amount` has its unit, the rest follow the type. */
  function FieldMeaning(f: FieldSpec, s: Members, t: Text): Option<Meaning> {
    var (kind, name) := f;
    if name == AGREEMENT_ID then Some(Named(Shown(s, AGREEMENT_ID)))
    else if name == REASON_HASH then Some(Named(Shown(s, REASON_CODE)))
    else if name == DECISION_ID then Some(Named(Shown(s, DECISION_ID)))
    else if name == AMOUNT then
      var struct := if ACTIVATION_START <= t then ActivationStruct else AgreementStruct;
      NumberOf(AmountUnits(struct, Pinned(s), Shown(s, AMOUNT)))
    else if name !in s then None
    else if kind == ADDRESS then AccountOf(s[name])
    else if kind == BYTES32 then AnchorOf(s[name])
    else if UINT <= kind then NumberOf(BigIntOf(s[name]))
    else None
  }

  function MeaningWord(keccak: Hasher, m: Meaning): seq<int> {
    match m
    case Named(text) => keccak(text)
    case Number(n) => ToBytes(n, 32)
    case Account(bytes) => Pad12() + bytes
    case Anchor(bytes) => bytes
  }

  function Pad12(): (r: seq<Byte>)
    ensures |r| == 12
  {
    [0, 0, 0, 0, 0, 0, 0, 0, 0, 0, 0, 0]
  }

  predicate SameShape(m: Meaning, n: Meaning) {
    (m.Named? && n.Named?) || (m.Number? && n.Number?) || (m.Account? && n.Account?) || (m.Anchor? && n.Anchor?)
  }

  /** In range: numbers fit a word, accounts have 20 bytes and anchors 32. */
  predicate Fits(m: Meaning) {
    match m
    case Named(_) => true
    case Number(n) => n < TWO_256
    case Account(bytes) => |bytes| == 20
    case Anchor(bytes) => |bytes| == 32
  }

  /** The field's type string, not its value, decides how it is read. */
  lemma MeaningShape(f: FieldSpec, s: Members, r: Members, t: Text)
    requires FieldMeaning(f, s, t).Some? && FieldMeaning(f, r, t).Some?
    ensures SameShape(FieldMeaning(f, s, t).value, FieldMeaning(f, r, t).value)
    ensures Fits(FieldMeaning(f, s, t).value)
  {
    hide AmountUnits, BigIntOf, FromHex, Shown, Pinned;
    hide AGREEMENT_ID, REASON_HASH, REASON_CODE, DECISION_ID, AMOUNT, ADDRESS, BYTES32, UINT, ACTIVATION_START;
  }

  lemma WordIsMeaning(keccak: Hasher, m: Meaning, n: Meaning)
    requires Ideal(keccak) && SameShape(m, n) && Fits(m) && Fits(n) && MeaningWord(keccak, m) == MeaningWord(keccak, n)
    ensures m == n
  {
    match m
    case Named(_) =>
    case Number(x) =>
      WordLimit();
      ToBytesValue(x, 32);
      ToBytesValue(n.n, 32);
    case Account(bytes) => assert (Pad12() + bytes)[12..] == bytes && (Pad12() + n.bytes)[12..] == n.bytes;
    case Anchor(_) =>
  }

  lemma WordLength(keccak: Hasher, m: Meaning)
    requires Ideal(keccak) && Fits(m)
    ensures |MeaningWord(keccak, m)| == 32
  {
  }

  /** A word of 32 bytes is a number: a number's own, and an account's as if it were one, padded on the left. */
  lemma WordReadsBack(keccak: Hasher, m: Meaning)
    requires Fits(m) && (m.Number? || m.Account?)
    ensures exists w: seq<Byte> ::
      w == MeaningWord(keccak, m) && |w| == 32 && FromBytes(w) == if m.Number? then m.n else FromBytes(m.bytes)
  {
    if m.Number? {
      NumberReads(m.n);
      assert MeaningWord(keccak, m) == ToBytes(m.n, 32);
    } else {
      AccountReads(m.bytes);
      assert MeaningWord(keccak, m) == Pad12() + m.bytes;
    }
    hide *;
  }

  lemma NumberReads(n: nat)
    requires n < TWO_256
    ensures |ToBytes(n, 32)| == 32 && FromBytes(ToBytes(n, 32)) == n
  {
    WordLimit();
    ToBytesValue(n, 32);
  }

  lemma AccountReads(bytes: seq<Byte>)
    ensures FromBytes(Pad12() + bytes) == FromBytes(bytes)
  {
    hide *;
    FromBytesConcat(Pad12(), bytes);
    PadIsZero();
  }

  lemma PadIsZero()
    ensures FromBytes(Pad12()) == 0
  {
    FromBytesZeros(Pad12());
  }

  function StructMeanings(fs: seq<FieldSpec>, s: Members, t: Text): Option<seq<Meaning>> {
    if fs == [] then Some([])
    else
      match (FieldMeaning(fs[0], s, t), StructMeanings(fs[1..], s, t))
      case (Some(m), Some(ms)) => Some([m] + ms)
      case _ => None
  }

  function WordsOf(keccak: Hasher, ms: seq<Meaning>): seq<seq<int>> {
    seq(|ms|, i requires 0 <= i < |ms| => MeaningWord(keccak, ms[i]))
  }

  /** What a struct says field by field, or nothing where `structHash` throws. */
  function Says(t: Text, s: Members): Option<seq<Meaning>> {
    var fs := ParseTypeString(t);
    if fs.None? then None else StructMeanings(fs.value, s, t)
  }

  function StructDigest(keccak: Hasher, d: Domain, t: Text, s: Members): Option<seq<int>> {
    var ms := Says(t, s);
    if ms.None? then None else Some(Digest(keccak, d, t, WordsOf(keccak, ms.value)))
  }

  lemma {:induction false} MeaningsFit(fs: seq<FieldSpec>, s: Members, r: Members, t: Text)
    requires StructMeanings(fs, s, t).Some? && StructMeanings(fs, r, t).Some?
    ensures var ms, ns := StructMeanings(fs, s, t).value, StructMeanings(fs, r, t).value;
      && |ms| == |fs| && |ns| == |fs|
      && forall i :: 0 <= i < |ms| ==> SameShape(ms[i], ns[i]) && Fits(ms[i]) && Fits(ns[i])
  {
    hide FieldMeaning, SameShape, Fits;
    if fs != [] {
      MeaningShape(fs[0], s, r, t);
      MeaningShape(fs[0], r, s, t);
      MeaningsFit(fs[1..], s, r, t);
    }
  }

  lemma WordsPin(keccak: Hasher, ms: seq<Meaning>, ns: seq<Meaning>)
    requires Ideal(keccak) && |ms| == |ns| && WordsOf(keccak, ms) == WordsOf(keccak, ns)
    requires forall i :: 0 <= i < |ms| ==> SameShape(ms[i], ns[i]) && Fits(ms[i]) && Fits(ns[i])
    ensures ms == ns
  {
    hide MeaningWord, SameShape, Fits;
    forall i | 0 <= i < |ms| ensures ms[i] == ns[i] {
      assert WordsOf(keccak, ms)[i] == WordsOf(keccak, ns)[i];
      WordIsMeaning(keccak, ms[i], ns[i]);
    }
  }

  lemma WordsAreWords(keccak: Hasher, ms: seq<Meaning>)
    requires Ideal(keccak) && forall i :: 0 <= i < |ms| ==> Fits(ms[i])
    ensures Words(WordsOf(keccak, ms))
  {
    hide MeaningWord, Fits;
    forall i | 0 <= i < |ms| ensures |WordsOf(keccak, ms)[i]| == 32 { WordLength(keccak, ms[i]); }
  }

  // ------------------------------------------------------------------ what a struct says, field by field

  /**
   The meaning of a field in the profile's own names: an Activation's `amount` is the integer it spells, any other
   struct's the base units of its price, unless base units are pinned beside it; `reasonHash` is the reason's code.
   */
  ghost predicate FieldSays(f: FieldSpec, activation: bool, s: Members, m: Meaning) {
    if f.1 == Chars("agreementId") then m == Named(Shown(s, Chars("agreementId")))
    else if f.1 == Chars("reasonHash") then m == Named(Shown(s, Chars("reasonCode")))
    else if f.1 == Chars("decisionId") then m == Named(Shown(s, Chars("decisionId")))
    else if f.1 == Chars("amount") then
      && m.Number? && m.n < TWO_256
      && if Chars("amountBaseUnits") in s then BigIntOf(s[Chars("amountBaseUnits")]) == Some(m.n)
         else if activation then BigIntOf(Shown(s, Chars("amount"))) == Some(m.n)
         else UsdcBaseUnits(Shown(s, Chars("amount"))) == Some(m.n)
    else
      && f.1 in s
      && if f.0 == Chars("address") then m.Account? && |m.bytes| == 20 && FromHex(s[f.1]) == Some(m.bytes)
         else if f.0 == Chars("bytes32") then m.Anchor? && WordBytes32(s[f.1]) == Some(m.bytes)
         else Chars("uint") <= f.0 && m.Number? && m.n < TWO_256 && BigIntOf(s[f.1]) == Some(m.n)
  }

  /** The name before the bracket decides whether a type string is an Activation's. */
  lemma ActivationByName(name: Text, fs: seq<FieldSpec>)
    requires Free(name, OPEN) && fs != []
    ensures ACTIVATION_START <= TypeString(name, fs) <==> name == Chars("Activation")
  {
    var t, a := TypeString(name, fs), Chars("Activation");
    assert ACTIVATION_START == a + [OPEN];
    assert |a| == 10 && Free(a, OPEN);
    hide FieldTexts, Chars;
    assert t[..|name|] == name && t[|name|] == OPEN;
    if ACTIVATION_START <= t {
      assert t[..10] == a && t[10] == OPEN;
    }
  }

  lemma FieldSaysMeaning(f: FieldSpec, s: Members, t: Text, m: Meaning)
    ensures FieldMeaning(f, s, t) == Some(m) <==> FieldSays(f, ACTIVATION_START <= t, s, m)
  {
    hide BigIntOf, UsdcBaseUnits, FromHex, ACTIVATION_START;
    hide WordBytes32;
    if f.0 == BYTES32 && f.1 in s { AnchorMeaning(s[f.1], m); }
  }

  lemma AnchorMeaning(v: Text, m: Meaning)
    ensures AnchorOf(v) == Some(m) <==> m.Anchor? && WordBytes32(v) == Some(m.bytes)
  {
  }

  lemma {:induction false} MeaningsSay(fs: seq<FieldSpec>, s: Members, t: Text, ms: seq<Meaning>)
    ensures StructMeanings(fs, s, t) == Some(ms) <==>
      |ms| == |fs| && forall i :: 0 <= i < |fs| ==> FieldMeaning(fs[i], s, t) == Some(ms[i])
  {
    hide FieldMeaning;
    if fs != [] && ms != [] {
      MeaningsSay(fs[1..], s, t, ms[1..]);
      assert ms == [ms[0]] + ms[1..] && fs == [fs[0]] + fs[1..];
    }
  }

  /** Fields a type string can list. */
  ghost predicate Listed(name: Text, fs: seq<FieldSpec>) {
    Free(name, OPEN) && fs != [] && forall i :: 0 <= i < |fs| ==> Word(fs[i].0) && Word(fs[i].1)
  }

  /** A written type string lists the fields, and the struct says of each exactly what its name and type call for. */
  lemma SaysFieldByField(name: Text, fs: seq<FieldSpec>, s: Members, ms: seq<Meaning>)
    requires Listed(name, fs)
    ensures Says(TypeString(name, fs), s) == Some(ms) <==>
      |ms| == |fs| && forall i :: 0 <= i < |fs| ==> FieldSays(fs[i], name == Chars("Activation"), s, ms[i])
  {
    var t := TypeString(name, fs);
    TypeStringParses(name, fs);
    ActivationByName(name, fs);
    hide TypeString, ParseTypeString, FieldMeaning, FieldSays, Word, Free;
    MeaningsSay(fs, s, t, ms);
    if |ms| == |fs| {
      forall i | 0 <= i < |fs|
        ensures FieldMeaning(fs[i], s, t) == Some(ms[i]) <==> FieldSays(fs[i], name == Chars("Activation"), s, ms[i])
      {
        FieldSaysMeaning(fs[i], s, t, ms[i]);
      }
    }
  }

  /** The amount of an Activation is the integer it spells, that of any other struct the base units of its price. */
  lemma AmountFollowsStruct(name: Text, fs: seq<FieldSpec>, i: nat, s: Members, ms: seq<Meaning>)
    requires Listed(name, fs) && i < |fs| && fs[i].1 == Chars("amount") && Says(TypeString(name, fs), s) == Some(ms)
    requires Chars("amountBaseUnits") !in s && Chars("amount") in s
    ensures |ms| == |fs| && ms[i].Number?
    ensures (if name == Chars("Activation") then BigIntOf(s[Chars("amount")]) else UsdcBaseUnits(s[Chars("amount")]))
      == Some(ms[i].n)
  {
    SaysFieldByField(name, fs, s, ms);
    NamesApart();
    hide Says, TypeString, Listed, BigIntOf, UsdcBaseUnits, Chars;
    assert FieldSays(fs[i], name == Chars("Activation"), s, ms[i]);
  }

  lemma NamesApart()
    ensures Chars("amount") != Chars("agreementId") && Chars("amount") != Chars("reasonHash")
    ensures Chars("amount") != Chars("decisionId")
  {
    assert |Chars("amount")| == 6;
  }

  /**
   An Agreement over a price and an Activation over printed base units say the same amount exactly when the price is
   that many base units.
   */
  lemma StructAmountsMeet(
      name: Text, fs: seq<FieldSpec>, i: nat, s: Members, ms: seq<Meaning>, gs: seq<FieldSpec>, j: nat, r: Members,
      ns: seq<Meaning>, units: nat)
    requires Listed(name, fs) && Listed(Chars("Activation"), gs) && name != Chars("Activation")
    requires i < |fs| && fs[i].1 == Chars("amount") && j < |gs| && gs[j].1 == Chars("amount")
    requires Says(TypeString(name, fs), s) == Some(ms) && Says(TypeString(Chars("Activation"), gs), r) == Some(ns)
    requires Chars("amountBaseUnits") !in s && Chars("amountBaseUnits") !in r
    requires Chars("amount") in s && Chars("amount") in r && r[Chars("amount")] == Print(units)
    ensures |ms| == |fs| && |ns| == |gs|
    ensures ms[i] == ns[j] <==> UsdcBaseUnits(s[Chars("amount")]) == Some(units)
  {
    hide *;
    AmountFollowsStruct(name, fs, i, s, ms);
    AmountFollowsStruct(Chars("Activation"), gs, j, r, ns);
    DigitsAreRead(Print(units));
    ValueOfPrint(units);
  }

  /**
   A digest pins what was signed: for every type string, the eight of the profile included, two signable structs
   with one digest have one domain, one type string and the same value in every field, whatever its spelling; and
   structs that say the same have one digest.
   */
  lemma StructDigestPins(keccak: Hasher, d: Domain, e: Domain, t: Text, u: Text, s: Members, r: Members)
    requires Ideal(keccak) && WellFormedDomain(d) && WellFormedDomain(e) && Says(t, s).Some? && Says(u, r).Some?
    ensures StructDigest(keccak, d, t, s) == StructDigest(keccak, e, u, r) <==>
      d == e && t == u && Says(t, s) == Says(u, r)
  {
    var fs, gs := ParseTypeString(t).value, ParseTypeString(u).value;
    var ms, ns := Says(t, s).value, Says(u, r).value;
    MeaningsFit(fs, s, s, t);
    MeaningsFit(gs, r, r, u);
    if t == u { MeaningsFit(fs, s, r, t); }
    hide ParseTypeString, StructMeanings, MeaningWord, SameShape, Fits, WellFormedDomain, Digest;
    WordsAreWords(keccak, ms);
    WordsAreWords(keccak, ns);
    if Digest(keccak, d, t, WordsOf(keccak, ms)) == Digest(keccak, e, u, WordsOf(keccak, ns)) {
      DigestPins(keccak, d, e, t, u, WordsOf(keccak, ms), WordsOf(keccak, ns));
      WordsPin(keccak, ms, ns);
    }
  }
}
