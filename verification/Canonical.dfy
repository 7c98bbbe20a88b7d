/**
 The engine's canonical JSON: sorted keys, integers only. Strings are sequences of UTF-16 code units,
 so that key order and well-formed escaping are those of JavaScript.
 */
module Canonical {
  import opened Sorting
  import opened Decimal

  type Text = seq<int>

  /** A JavaScript value as the encoder meets it; the last two are what it refuses wherever they occur. */
  datatype Json =
    | Null
    | Bool(value: bool)
    | Num(n: int)
    | Str(s: Text)
    | Arr(items: seq<Json>)
    | Obj(members: seq<Member>)
    | Undefined
    | Inexact  // a non-finite, fractional or unsafe number
    | Exotic   // an object that is not plain, a function, a symbol or a bigint

  datatype Member = Member(key: Text, value: Json)

  const QUOTE := '"' as int
  const BACKSLASH := '\\' as int
  const COMMA := ',' as int
  const COLON := ':' as int
  const MINUS := '-' as int
  const OPEN_ARR := '[' as int
  const CLOSE_ARR := ']' as int
  const OPEN_OBJ := '{' as int
  const CLOSE_OBJ := '}' as int

  const NULL: Text := ['n' as int, 'u' as int, 'l' as int, 'l' as int]
  const TRUE: Text := ['t' as int, 'r' as int, 'u' as int, 'e' as int]
  const FALSE: Text := ['f' as int, 'a' as int, 'l' as int, 's' as int, 'e' as int]

  predicate IsUnit(c: int) { 0 <= c < 0x1_0000 }

  predicate IsText(s: Text) { forall i :: 0 <= i < |s| ==> IsUnit(s[i]) }

  // ------------------------------------------------------------------ strings

  predicate IsLead(c: int) { 0xD800 <= c <= 0xDBFF }

  predicate IsTrail(c: int) { 0xDC00 <= c <= 0xDFFF }

  function HexDigit(d: int): int
    requires 0 <= d < 16
  {
    if d < 10 then '0' as int + d else 'a' as int + (d - 10)
  }

  function HexValue(c: int): int {
    if '0' as int <= c <= '9' as int then c - '0' as int
    else if 'a' as int <= c <= 'f' as int then c - 'a' as int + 10
    else -1
  }

  /** One code unit inside quotes, unless it is half of a surrogate pair. */
  function Escape(c: int): (r: Text)
    requires IsUnit(c)
    ensures r != []
  {
    if c == QUOTE then [BACKSLASH, QUOTE]
    else if c == BACKSLASH then [BACKSLASH, BACKSLASH]
    else if c == 8 then [BACKSLASH, 'b' as int]
    else if c == 9 then [BACKSLASH, 't' as int]
    else if c == 10 then [BACKSLASH, 'n' as int]
    else if c == 12 then [BACKSLASH, 'f' as int]
    else if c == 13 then [BACKSLASH, 'r' as int]
    else if c < 0x20 || IsLead(c) || IsTrail(c) then
      [BACKSLASH, 'u' as int, HexDigit(c / 0x1000), HexDigit(c / 0x100 % 16), HexDigit(c / 16 % 16), HexDigit(c % 16)]
    else [c]
  }

  function QuoteBody(s: Text): Text
    requires IsText(s)
  {
    if s == [] then []
    else if |s| > 1 && IsLead(s[0]) && IsTrail(s[1]) then [s[0], s[1]] + QuoteBody(s[2..])
    else Escape(s[0]) + QuoteBody(s[1..])
  }

  /** `JSON.stringify` of a string. */
  function Quote(s: Text): Text
    requires IsText(s)
  {
    [QUOTE] + (QuoteBody(s) + [QUOTE])
  }

  function Unescape(c: int): Option<int> {
    if c == QUOTE || c == BACKSLASH then Some(c)
    else if c == 'b' as int then Some(8)
    else if c == 't' as int then Some(9)
    else if c == 'n' as int then Some(10)
    else if c == 'f' as int then Some(12)
    else if c == 'r' as int then Some(13)
    else None
  }

  /** The first code unit of a quoted body and how many characters spell it. */
  function ReadUnit(s: Text): Option<(int, nat)>
    requires s != []
  {
    if s[0] != BACKSLASH then Some((s[0], 1))
    else if |s| < 2 then None
    else if s[1] != 'u' as int then
      (match Unescape(s[1]) case Some(c) => Some((c, 2)) case None => None)
    else if |s| < 6 then None
    else
      var a, b, c, d := HexValue(s[2]), HexValue(s[3]), HexValue(s[4]), HexValue(s[5]);
      if a < 0 || b < 0 || c < 0 || d < 0 then None
      else Some((a * 0x1000 + b * 0x100 + c * 16 + d, 6))
  }

  /** A quoted body up to its closing quote, and what follows. */
  function ReadBody(s: Text): (r: Option<(Text, Text)>)
    ensures r.Some? ==> |r.value.1| < |s|
    decreases |s|
  {
    if s == [] then None
    else if s[0] == QUOTE then Some(([], s[1..]))
    else
      match ReadUnit(s)
      case None => None
      case Some((c, n)) =>
        if n == 0 || n > |s| then None
        else
          match ReadBody(s[n..])
          case None => None
          case Some((t, rest)) => Some(([c] + t, rest))
  }

  lemma ReadsEscape(c: int, rest: Text)
    requires IsUnit(c)
    ensures Escape(c)[0] != QUOTE
    ensures ReadUnit(Escape(c) + rest) == Some((c, |Escape(c)|))
  {
    if |Escape(c)| == 6 { ReadsLongEscape(c, rest); } else { ReadsShortEscape(c, rest); }
  }

  lemma ReadsShortEscape(c: int, rest: Text)
    requires IsUnit(c) && |Escape(c)| != 6
    ensures Escape(c)[0] != QUOTE
    ensures ReadUnit(Escape(c) + rest) == Some((c, |Escape(c)|))
  {
    hide HexDigit, HexValue;
    var e := Escape(c);
    var s := e + rest;
    assert s[0] == e[0] && (|e| > 1 ==> s[1] == e[1]);
  }

  lemma ReadsLongEscape(c: int, rest: Text)
    requires IsUnit(c) && |Escape(c)| == 6
    ensures Escape(c)[0] != QUOTE
    ensures ReadUnit(Escape(c) + rest) == Some((c, |Escape(c)|))
  {
    FourDigits(c);
    var a, b, d, e := c / 0x1000, c / 0x100 % 16, c / 16 % 16, c % 16;
    HexRoundTrip(a);
    HexRoundTrip(b);
    HexRoundTrip(d);
    HexRoundTrip(e);
    var t := [BACKSLASH, 'u' as int, HexDigit(a), HexDigit(b), HexDigit(d), HexDigit(e)];
    LongEscape(c);
    hide HexDigit, HexValue, Escape;
    var s := t + rest;
    assert s[0] == t[0] && s[1] == t[1] && s[2] == t[2] && s[3] == t[3] && s[4] == t[4] && s[5] == t[5];
  }

  lemma LongEscape(c: int)
    requires IsUnit(c) && |Escape(c)| == 6
    ensures Escape(c) ==
      [BACKSLASH, 'u' as int, HexDigit(c / 0x1000), HexDigit(c / 0x100 % 16), HexDigit(c / 16 % 16), HexDigit(c % 16)]
  {
    hide HexDigit;
  }

  lemma FourDigits(c: int)
    requires IsUnit(c)
    ensures 0 <= c / 0x1000 < 16
    ensures c == c / 0x1000 * 0x1000 + c / 0x100 % 16 * 0x100 + c / 16 % 16 * 16 + c % 16
  {
  }

  lemma HexRoundTrip(d: int)
    requires 0 <= d < 16
    ensures HexValue(HexDigit(d)) == d
  {
  }

  lemma ReadBodyStep(s: Text, c: int, n: nat, t: Text, rest: Text)
    requires s != [] && s[0] != QUOTE && ReadUnit(s) == Some((c, n)) && 0 < n <= |s|
    requires ReadBody(s[n..]) == Some((t, rest))
    ensures ReadBody(s) == Some(([c] + t, rest))
  {
  }

  lemma ReadsUnit(c: int, n: nat, e: Text, body: Text, t: Text, rest: Text)
    requires |e| == n > 0 && e[0] != QUOTE && ReadUnit(e + body) == Some((c, n))
    requires ReadBody(body) == Some((t, rest))
    ensures ReadBody(e + body) == Some(([c] + t, rest))
  {
    assert (e + body)[n..] == body;
    ReadBodyStep(e + body, c, n, t, rest);
  }

  lemma ReadsRaw(c: int, body: Text, t: Text, rest: Text)
    requires c != QUOTE && c != BACKSLASH && ReadBody(body) == Some((t, rest))
    ensures ReadBody([c] + body) == Some(([c] + t, rest))
  {
    ReadsUnit(c, 1, [c], body, t, rest);
  }

  lemma ReadsEscaped(c: int, body: Text, t: Text, rest: Text)
    requires IsUnit(c) && ReadBody(body) == Some((t, rest))
    ensures ReadBody(Escape(c) + body) == Some(([c] + t, rest))
  {
    ReadsEscape(c, body);
    ReadsUnit(c, |Escape(c)|, Escape(c), body, t, rest);
  }

  /** A string split off its first one or two code units, raw or escaped. */
  lemma ReadsPair(s: Text, body: Text, rest: Text)
    requires |s| > 1 && IsLead(s[0]) && IsTrail(s[1]) && ReadBody(body) == Some((s[2..], rest))
    ensures ReadBody([s[0], s[1]] + body) == Some((s, rest))
  {
    hide ReadBody;
    ReadsRaw(s[1], body, s[2..], rest);
    ReadsRaw(s[0], [s[1]] + body, [s[1]] + s[2..], rest);
    assert [s[0], s[1]] + body == [s[0]] + ([s[1]] + body);
    assert s == [s[0]] + ([s[1]] + s[2..]);
  }

  lemma ReadsSingle(s: Text, body: Text, rest: Text)
    requires IsText(s) && s != [] && ReadBody(body) == Some((s[1..], rest))
    ensures ReadBody(Escape(s[0]) + body) == Some((s, rest))
  {
    hide ReadBody, Escape;
    ReadsEscaped(s[0], body, s[1..], rest);
    assert s == [s[0]] + s[1..];
  }

  /** Reading a quoted string gives back exactly the string, pairs and lone surrogates included. */
  lemma {:induction false} ReadsBody(s: Text, rest: Text)
    requires IsText(s)
    ensures ReadBody(QuoteBody(s) + ([QUOTE] + rest)) == Some((s, rest))
    decreases |s|
  {
    var tail := [QUOTE] + rest;
    if s == [] {
      assert QuoteBody(s) + tail == tail && tail[1..] == rest;
    } else {
      hide ReadBody, Escape, ReadUnit;
      if |s| > 1 && IsLead(s[0]) && IsTrail(s[1]) {
        ReadsBody(s[2..], rest);
        ReadsPair(s, QuoteBody(s[2..]) + tail, rest);
        Regroup([s[0], s[1]], QuoteBody(s[2..]), tail);
      } else {
        ReadsBody(s[1..], rest);
        ReadsSingle(s, QuoteBody(s[1..]) + tail, rest);
        Regroup(Escape(s[0]), QuoteBody(s[1..]), tail);
      }
    }
  }

  lemma Regroup(a: Text, b: Text, c: Text)
    ensures (a + b) + c == a + (b + c)
  {
  }

  // ------------------------------------------------------------------ the encoder

  predicate SafeInteger(n: int) { -9007199254740991 <= n <= 9007199254740991 }

  function PrintInt(n: int): Text { if n < 0 then [MINUS] + Print(-n) else Print(n) }

  predicate ByKey(a: Member, b: Member) { LexLe(a.key, b.key) }

  /** Own entries whose value is not undefined. */
  function Defined(ms: seq<Member>): (r: seq<Member>)
    ensures forall m :: m in r <==> m in ms && m.value != Undefined
  {
    if ms == [] then []
    else (if ms[0].value == Undefined then [] else [ms[0]]) + Defined(ms[1..])
  }

  /** The entries in the order they are written. */
  function Entries(ms: seq<Member>): (r: seq<Member>)
    ensures forall m :: m in r <==> m in ms && m.value != Undefined
  {
    SameMembers(Sort(Defined(ms), ByKey), Defined(ms));
    Sort(Defined(ms), ByKey)
  }

  ghost predicate DistinctKeys(ms: seq<Member>) {
    forall i, j :: 0 <= i < j < |ms| ==> ms[i].key != ms[j].key
  }

  /** A value JavaScript can hold: property names are unique and strings are made of code units. */
  ghost predicate Representable(v: Json) {
    match v
    case Str(s) => IsText(s)
    case Arr(items) => forall x :: x in items ==> Representable(x)
    case Obj(ms) => DistinctKeys(ms) && forall m :: m in ms ==> IsText(m.key) && Representable(m.value)
    case _ => true
  }

  function Encode(v: Json): Option<Text>
    requires Representable(v)
    decreases v, 1, 0
  {
    match v
    case Null => Some(NULL)
    case Bool(b) => Some(if b then TRUE else FALSE)
    case Num(n) => if SafeInteger(n) then Some(PrintInt(n)) else None
    case Str(s) => Some(Quote(s))
    case Arr(items) =>
      if items == [] then Some([OPEN_ARR, CLOSE_ARR])
      else (match EncodeItems(v, items) case None => None case Some(t) => Some([OPEN_ARR] + (t + [CLOSE_ARR])))
    case Obj(ms) =>
      if Entries(ms) == [] then Some([OPEN_OBJ, CLOSE_OBJ])
      else (match EncodeMembers(v, Entries(ms)) case None => None case Some(t) => Some([OPEN_OBJ] + (t + [CLOSE_OBJ])))
    case Undefined => None
    case Inexact => None
    case Exotic => None
  }

  function EncodeItems(v: Json, items: seq<Json>): Option<Text>
    requires items != [] && forall i :: 0 <= i < |items| ==> items[i] < v && Representable(items[i])
    decreases v, 0, |items|
  {
    match Encode(items[0])
    case None => None
    case Some(t) =>
      if |items| == 1 then Some(t)
      else (match EncodeItems(v, items[1..]) case None => None case Some(u) => Some(t + ([COMMA] + u)))
  }

  function EncodeMembers(v: Json, ms: seq<Member>): Option<Text>
    requires ms != [] && forall i :: 0 <= i < |ms| ==>
      ms[i].value < v && IsText(ms[i].key) && Representable(ms[i].value)
    decreases v, 0, |ms|
  {
    match Encode(ms[0].value)
    case None => None
    case Some(t) =>
      var entry := Quote(ms[0].key) + ([COLON] + t);
      if |ms| == 1 then Some(entry)
      else (match EncodeMembers(v, ms[1..]) case None => None case Some(u) => Some(entry + ([COMMA] + u)))
  }

  // ------------------------------------------------------------------ canonical values

  /** Nothing the encoder refuses; an undefined member is dropped, an undefined item is refused. */
  ghost predicate Supported(v: Json) {
    match v
    case Num(n) => SafeInteger(n)
    case Arr(items) => forall x :: x in items ==> Supported(x)
    case Obj(ms) => forall m :: m in ms ==> m.value == Undefined || Supported(m.value)
    case Undefined => false
    case Inexact => false
    case Exotic => false
    case _ => true
  }

  /** The value the text stands for: undefined members dropped and members in key order, throughout. */
  function Canon(v: Json): Json
    decreases v, 1, 0
  {
    match v
    case Arr(items) => Arr(CanonItems(v, items))
    case Obj(ms) => Obj(CanonMembers(v, Entries(ms)))
    case _ => v
  }

  function CanonItems(v: Json, items: seq<Json>): (r: seq<Json>)
    requires forall i :: 0 <= i < |items| ==> items[i] < v
    ensures |r| == |items| && forall i :: 0 <= i < |r| ==> r[i] == Canon(items[i])
    decreases v, 0, |items|
  {
    if items == [] then [] else [Canon(items[0])] + CanonItems(v, items[1..])
  }

  function CanonMembers(v: Json, ms: seq<Member>): (r: seq<Member>)
    requires forall i :: 0 <= i < |ms| ==> ms[i].value < v
    ensures |r| == |ms| && forall i :: 0 <= i < |r| ==> r[i] == Member(ms[i].key, Canon(ms[i].value))
    decreases v, 0, |ms|
  {
    if ms == [] then [] else [Member(ms[0].key, Canon(ms[0].value))] + CanonMembers(v, ms[1..])
  }

  /** A value that is written member by member as it stands. */
  ghost predicate Printable(v: Json) {
    match v
    case Null => true
    case Bool(_) => true
    case Num(n) => SafeInteger(n)
    case Str(s) => IsText(s)
    case Arr(items) => forall x :: x in items ==> Printable(x)
    case Obj(ms) => forall m :: m in ms ==> IsText(m.key) && Printable(m.value)
    case _ => false
  }

  function PrintValue(v: Json): Text
    requires Printable(v)
  {
    match v
    case Null => NULL
    case Bool(b) => if b then TRUE else FALSE
    case Num(n) => PrintInt(n)
    case Str(s) => Quote(s)
    case Arr(items) => if items == [] then [OPEN_ARR, CLOSE_ARR] else [OPEN_ARR] + (PrintItems(items) + [CLOSE_ARR])
    case Obj(ms) => if ms == [] then [OPEN_OBJ, CLOSE_OBJ] else [OPEN_OBJ] + (PrintMembers(ms) + [CLOSE_OBJ])
  }

  function PrintItems(items: seq<Json>): Text
    requires items != [] && forall i :: 0 <= i < |items| ==> Printable(items[i])
  {
    if |items| == 1 then PrintValue(items[0]) else PrintValue(items[0]) + ([COMMA] + PrintItems(items[1..]))
  }

  function PrintMembers(ms: seq<Member>): Text
    requires ms != [] && forall i :: 0 <= i < |ms| ==> IsText(ms[i].key) && Printable(ms[i].value)
  {
    var entry := Quote(ms[0].key) + ([COLON] + PrintValue(ms[0].value));
    if |ms| == 1 then entry else entry + ([COMMA] + PrintMembers(ms[1..]))
  }

  // ------------------------------------------------------------------ the decoder

  /** A value at the start of a text, and what follows it. */
  function DecodeValue(s: Text): (r: Option<(Json, Text)>)
    ensures r.Some? ==> |r.value.1| < |s|
    decreases |s|, 1
  {
    if s == [] then None
    else if s[0] == NULL[0] then (if NULL <= s then Some((Null, s[4..])) else None)
    else if s[0] == TRUE[0] then (if TRUE <= s then Some((Bool(true), s[4..])) else None)
    else if s[0] == FALSE[0] then (if FALSE <= s then Some((Bool(false), s[5..])) else None)
    else if s[0] == QUOTE then
      (match ReadBody(s[1..]) case None => None case Some((t, rest)) => Some((Str(t), rest)))
    else if s[0] == OPEN_ARR then
      if |s| > 1 && s[1] == CLOSE_ARR then Some((Arr([]), s[2..]))
      else (match DecodeItems(s[1..]) case None => None case Some((items, rest)) => Some((Arr(items), rest)))
    else if s[0] == OPEN_OBJ then
      if |s| > 1 && s[1] == CLOSE_OBJ then Some((Obj([]), s[2..]))
      else (match DecodeMembers(s[1..]) case None => None case Some((ms, rest)) => Some((Obj(ms), rest)))
    else DecodeInt(s)
  }

  function DecodeInt(s: Text): (r: Option<(Json, Text)>)
    requires s != []
    ensures r.Some? ==> |r.value.1| < |s|
  {
    var t := if s[0] == MINUS then s[1..] else s;
    var k := Run(t);
    if k == 0 then None
    else
      var m: int := Value(t[..k]);
      Some((Num(if s[0] == MINUS then -m else m), t[k..]))
  }

  function DecodeItems(s: Text): (r: Option<(seq<Json>, Text)>)
    ensures r.Some? ==> |r.value.1| < |s|
    decreases |s|, 2
  {
    match DecodeValue(s)
    case None => None
    case Some((v, rest)) =>
      if rest == [] then None
      else if rest[0] == CLOSE_ARR then Some(([v], rest[1..]))
      else if rest[0] != COMMA then None
      else (match DecodeItems(rest[1..]) case None => None case Some((vs, after)) => Some(([v] + vs, after)))
  }

  function DecodeMembers(s: Text): (r: Option<(seq<Member>, Text)>)
    ensures r.Some? ==> |r.value.1| < |s|
    decreases |s|, 2
  {
    if s == [] || s[0] != QUOTE then None
    else
      match ReadBody(s[1..])
      case None => None
      case Some((key, rest)) =>
        if rest == [] || rest[0] != COLON then None
        else
          match DecodeValue(rest[1..])
          case None => None
          case Some((v, after)) =>
            if after == [] then None
            else if after[0] == CLOSE_OBJ then Some(([Member(key, v)], after[1..]))
            else if after[0] != COMMA then None
            else (match DecodeMembers(after[1..]) case None => None case Some((ms, last)) => 
              Some(([Member(key, v)] + ms, last)))
  }

  /** A whole text that is one value. */
  function Decode(s: Text): Option<Json> {
    match DecodeValue(s)
    case None => None
    case Some((v, rest)) => if rest == [] then Some(v) else None
  }

  /** Nothing that could extend a number follows. */
  predicate Ends(rest: Text) { rest == [] || !IsDigit(rest[0]) }

  lemma ReadsInt(n: int, rest: Text)
    requires Ends(rest)
    ensures DecodeValue(PrintInt(n) + rest) == Some((Num(n), rest))
  {
    hide Run, Value, Print, DecodeItems, DecodeMembers, ReadBody;
    var m := if n < 0 then -n else n;
    var t := Print(m) + rest;
    RunOfConcat(Print(m), rest);
    assert t[..|Print(m)|] == Print(m) && t[|Print(m)|..] == rest;
    ValueOfPrint(m);
    var s := PrintInt(n) + rest;
    if n < 0 {
      assert s[1..] == t && s[0] == MINUS;
    } else {
      assert s == t && IsDigit(s[0]);
    }
  }

  lemma ReadsString(k: Text, rest: Text)
    requires IsText(k)
    ensures (Quote(k) + rest)[0] == QUOTE && ReadBody((Quote(k) + rest)[1..]) == Some((k, rest))
  {
    ReadsBody(k, rest);
    assert (Quote(k) + rest)[1..] == QuoteBody(k) + ([QUOTE] + rest);
  }

  lemma PrintedStart(v: Json)
    requires Printable(v)
    ensures PrintValue(v) != [] && PrintValue(v)[0] != CLOSE_ARR
  {
    if v.Num? && v.n >= 0 { assert IsDigit(Print(v.n)[0]); }
  }

  lemma ItemsStart(items: seq<Json>)
    requires items != [] && forall i :: 0 <= i < |items| ==> Printable(items[i])
    ensures PrintItems(items) != [] && PrintItems(items)[0] != CLOSE_ARR
  {
    hide PrintValue;
    PrintedStart(items[0]);
    assert PrintItems(items)[0] == PrintValue(items[0])[0];
  }

  lemma MembersStart(ms: seq<Member>)
    requires ms != [] && forall i :: 0 <= i < |ms| ==> IsText(ms[i].key) && Printable(ms[i].value)
    ensures PrintMembers(ms) != [] && PrintMembers(ms)[0] == QUOTE
  {
    hide PrintValue, QuoteBody;
    var entry := Quote(ms[0].key) + ([COLON] + PrintValue(ms[0].value));
    assert PrintMembers(ms)[0] == entry[0] == QUOTE;
  }

  lemma ReadsArray(s: Text, items: seq<Json>, rest: Text)
    requires s != [] && s[0] == OPEN_ARR
    requires if items == [] then s == [OPEN_ARR, CLOSE_ARR] + rest
             else |s| > 1 && s[1] != CLOSE_ARR && DecodeItems(s[1..]) == Some((items, rest))
    ensures DecodeValue(s) == Some((Arr(items), rest))
  {
    if items == [] { assert s[2..] == rest; }
  }

  lemma ReadsObject(s: Text, ms: seq<Member>, rest: Text)
    requires s != [] && s[0] == OPEN_OBJ
    requires if ms == [] then s == [OPEN_OBJ, CLOSE_OBJ] + rest
             else |s| > 1 && s[1] != CLOSE_OBJ && DecodeMembers(s[1..]) == Some((ms, rest))
    ensures DecodeValue(s) == Some((Obj(ms), rest))
  {
    if ms == [] { assert s[2..] == rest; }
  }

  lemma ReadsConstant(v: Json, rest: Text)
    requires v.Null? || v.Bool?
    ensures DecodeValue(PrintValue(v) + rest) == Some((v, rest))
  {
    var s := PrintValue(v) + rest;
    assert s[|PrintValue(v)|..] == rest && PrintValue(v) <= s;
  }

  /** The decoder reads back every printed value, whatever follows that cannot extend a number. */
  lemma {:induction false} ReadsValue(v: Json, rest: Text)
    requires Printable(v) && Ends(rest)
    ensures DecodeValue(PrintValue(v) + rest) == Some((v, rest))
    decreases v, 2, 0
  {
    hide DecodeValue, PrintValue;
    match v
    case Null => ReadsConstant(v, rest);
    case Bool(b) => ReadsConstant(v, rest);
    case Num(n) => ReadsNum(n, rest);
    case Str(t) => ReadsStr(t, rest);
    case Arr(items) => ReadsArr(v, rest);
    case Obj(ms) => ReadsObj(v, rest);
  }

  lemma ReadsNum(n: int, rest: Text)
    requires SafeInteger(n) && Ends(rest)
    ensures DecodeValue(PrintValue(Num(n)) + rest) == Some((Num(n), rest))
  {
    ReadsInt(n, rest);
  }

  lemma ReadsStr(t: Text, rest: Text)
    requires IsText(t)
    ensures DecodeValue(PrintValue(Str(t)) + rest) == Some((Str(t), rest))
  {
    ReadsString(t, rest);
  }

  lemma {:induction false} ReadsArr(v: Json, rest: Text)
    requires v.Arr? && Printable(v) && Ends(rest)
    ensures DecodeValue(PrintValue(v) + rest) == Some((v, rest))
    decreases v, 1, 0
  {
    hide DecodeValue, DecodeItems, PrintItems;
    var s := PrintValue(v) + rest;
    if v.items != [] {
      ReadsItems(v, v.items, rest);
      ItemsStart(v.items);
      Regroup(PrintItems(v.items), [CLOSE_ARR], rest);
      assert s[1..] == (PrintItems(v.items) + [CLOSE_ARR]) + rest;
    }
    ReadsArray(s, v.items, rest);
  }

  lemma {:induction false} ReadsObj(v: Json, rest: Text)
    requires v.Obj? && Printable(v) && Ends(rest)
    ensures DecodeValue(PrintValue(v) + rest) == Some((v, rest))
    decreases v, 1, 0
  {
    hide DecodeValue, DecodeMembers, PrintMembers;
    var s := PrintValue(v) + rest;
    if v.members != [] {
      ReadsMembers(v, v.members, rest);
      MembersStart(v.members);
      Regroup(PrintMembers(v.members), [CLOSE_OBJ], rest);
      assert s[1..] == (PrintMembers(v.members) + [CLOSE_OBJ]) + rest;
    }
    ReadsObject(s, v.members, rest);
  }

  lemma HeadAndTail<T>(s: seq<T>)
    requires s != []
    ensures s == [s[0]] + s[1..]
  {
  }

  lemma ItemsLast(first: Text, v: Json, rest: Text)
    requires DecodeValue(first + ([CLOSE_ARR] + rest)) == Some((v, [CLOSE_ARR] + rest))
    ensures DecodeItems(first + ([CLOSE_ARR] + rest)) == Some(([v], rest))
  {
    hide DecodeValue;
    assert ([CLOSE_ARR] + rest)[1..] == rest;
  }

  lemma ItemsMore(first: Text, v: Json, more: Text)
    requires DecodeValue(first + ([COMMA] + more)) == Some((v, [COMMA] + more)) && DecodeItems(more).Some?
    ensures DecodeItems(first + ([COMMA] + more)) == Some(([v] + DecodeItems(more).value.0, DecodeItems(more).value.1))
  {
    hide DecodeValue;
    assert ([COMMA] + more)[1..] == more;
  }

  lemma PrintItemsStep(items: seq<Json>, tail: Text)
    requires items != [] && forall i :: 0 <= i < |items| ==> Printable(items[i])
    ensures PrintItems(items) + tail == PrintValue(items[0]) +
      (if |items| == 1 then tail else [COMMA] + (PrintItems(items[1..]) + tail))
  {
    hide PrintValue;
    if |items| > 1 {
      Regroup(PrintValue(items[0]), [COMMA] + PrintItems(items[1..]), tail);
      Regroup([COMMA], PrintItems(items[1..]), tail);
    }
  }

  lemma {:induction false} ReadsItems(v: Json, items: seq<Json>, rest: Text)
    requires items != [] && forall i :: 0 <= i < |items| ==> items[i] < v && Printable(items[i])
    ensures DecodeItems(PrintItems(items) + ([CLOSE_ARR] + rest)) == Some((items, rest))
    decreases v, 0, |items|
  {
    var close := [CLOSE_ARR] + rest;
    PrintItemsStep(items, close);
    hide DecodeItems, DecodeValue, PrintValue, PrintItems, Printable;
    if |items| == 1 {
      ReadsValue(items[0], close);
      ItemsLast(PrintValue(items[0]), items[0], rest);
      assert items == [items[0]];
    } else {
      var more := PrintItems(items[1..]) + close;
      ReadsItems(v, items[1..], rest);
      ReadsValue(items[0], [COMMA] + more);
      ItemsMore(PrintValue(items[0]), items[0], more);
      HeadAndTail(items);
    }
  }

  lemma MembersStep(key: Text, first: Text, v: Json, after: Text)
    requires IsText(key) && DecodeValue(first + after) == Some((v, after)) && after != []
    ensures var s := Quote(key) + ([COLON] + (first + after));
      && (after[0] == CLOSE_OBJ ==> DecodeMembers(s) == Some(([Member(key, v)], after[1..])))
      && (after[0] == COMMA && DecodeMembers(after[1..]).Some? ==>
            DecodeMembers(s) == Some(([Member(key, v)] + DecodeMembers(after[1..]).value.0,
              DecodeMembers(after[1..]).value.1)))
  {
    hide DecodeValue, QuoteBody;
    var colon := [COLON] + (first + after);
    ReadsString(key, colon);
    assert colon[1..] == first + after;
  }

  lemma PrintMembersStep(ms: seq<Member>, tail: Text)
    requires ms != [] && forall i :: 0 <= i < |ms| ==> IsText(ms[i].key) && Printable(ms[i].value)
    ensures PrintMembers(ms) + tail == Quote(ms[0].key) + ([COLON] + (PrintValue(ms[0].value) +
      (if |ms| == 1 then tail else [COMMA] + (PrintMembers(ms[1..]) + tail))))
  {
    hide PrintValue, Quote;
    var key, value := Quote(ms[0].key), PrintValue(ms[0].value);
    var entry := key + ([COLON] + value);
    if |ms| > 1 {
      var more := PrintMembers(ms[1..]);
      var last := [COMMA] + (more + tail);
      Regroup(entry, [COMMA] + more, tail);
      Regroup([COMMA], more, tail);
      Regroup(key, [COLON] + value, last);
      Regroup([COLON], value, last);
    } else {
      Regroup(key, [COLON] + value, tail);
      Regroup([COLON], value, tail);
    }
  }

  lemma {:induction false} ReadsMembers(v: Json, ms: seq<Member>, rest: Text)
    requires ms != [] && forall i :: 0 <= i < |ms| ==> ms[i].value < v && IsText(ms[i].key) && Printable(ms[i].value)
    ensures DecodeMembers(PrintMembers(ms) + ([CLOSE_OBJ] + rest)) == Some((ms, rest))
    decreases v, 0, |ms|
  {
    var close := [CLOSE_OBJ] + rest;
    PrintMembersStep(ms, close);
    hide DecodeMembers, DecodeValue, PrintValue, PrintMembers, QuoteBody;
    if |ms| == 1 {
      ReadsValue(ms[0].value, close);
      MembersStep(ms[0].key, PrintValue(ms[0].value), ms[0].value, close);
      assert ms == [Member(ms[0].key, ms[0].value)] && close[1..] == rest;
    } else {
      var more := PrintMembers(ms[1..]) + close;
      var after := [COMMA] + more;
      ReadsMembers(v, ms[1..], rest);
      ReadsValue(ms[0].value, after);
      MembersStep(ms[0].key, PrintValue(ms[0].value), ms[0].value, after);
      assert after[1..] == more;
      assert ms == [Member(ms[0].key, ms[0].value)] + ms[1..];
    }
  }

  // ------------------------------------------------------------------ encoding is printing the canonical value

  /** The encoder refuses exactly the unsupported values, and otherwise prints the canonical one. */
  lemma {:induction false} EncodePrintsCanon(v: Json)
    requires Representable(v)
    ensures Encode(v).Some? <==> Supported(v)
    ensures Supported(v) ==> Printable(Canon(v)) && Encode(v) == Some(PrintValue(Canon(v)))
    decreases v, 1, 0
  {
    match v
    case Arr(items) =>
      if items != [] { ItemsPrintCanon(v, items); }
    case Obj(ms) =>
      EntriesSupported(v);
      if Entries(ms) != [] { MembersPrintCanon(v, Entries(ms)); }
    case _ =>
  }

  lemma EntriesSupported(v: Json)
    requires v.Obj? && Representable(v)
    ensures forall i :: 0 <= i < |Entries(v.members)| ==>
      Entries(v.members)[i] in v.members && Entries(v.members)[i].value < v &&
      IsText(Entries(v.members)[i].key) && Representable(Entries(v.members)[i].value)
    ensures Supported(v) <==> forall i :: 0 <= i < |Entries(v.members)| ==> Supported(Entries(v.members)[i].value)
  {
    var es := Entries(v.members);
    forall i | 0 <= i < |es|
      ensures es[i] in v.members && es[i].value < v && IsText(es[i].key) && Representable(es[i].value)
    {
      assert es[i] in es;
    }
    if forall i :: 0 <= i < |es| ==> Supported(es[i].value) {
      forall m | m in v.members ensures m.value == Undefined || Supported(m.value) {
        if m.value != Undefined { assert m in es; }
      }
    }
  }

  lemma {:induction false} ItemsPrintCanon(v: Json, items: seq<Json>)
    requires items != [] && forall i :: 0 <= i < |items| ==> items[i] < v && Representable(items[i])
    ensures EncodeItems(v, items).Some? <==> forall i :: 0 <= i < |items| ==> Supported(items[i])
    ensures EncodeItems(v, items).Some? ==>
      && (forall i :: 0 <= i < |items| ==> Printable(CanonItems(v, items)[i]))
      && EncodeItems(v, items) == Some(PrintItems(CanonItems(v, items)))
    decreases v, 0, |items|
  {
    EncodePrintsCanon(items[0]);
    if |items| > 1 {
      ItemsPrintCanon(v, items[1..]);
      var c := CanonItems(v, items);
      assert c[1..] == CanonItems(v, items[1..]);
      ItemsSupported(items);
      if EncodeItems(v, items).Some? {
        forall i | 0 <= i < |items| ensures Printable(c[i]) {
          if i > 0 { assert c[i] == c[1..][i - 1]; }
        }
      }
    }
  }

  lemma ItemsSupported(items: seq<Json>)
    requires items != []
    ensures (forall i :: 0 <= i < |items| ==> Supported(items[i])) <==>
            Supported(items[0]) && forall i :: 0 <= i < |items[1..]| ==> Supported(items[1..][i])
  {
    if Supported(items[0]) && forall i :: 0 <= i < |items[1..]| ==> Supported(items[1..][i]) {
      forall i | 0 <= i < |items| ensures Supported(items[i]) {
        if i > 0 { assert items[i] == items[1..][i - 1]; }
      }
    }
  }

  lemma {:induction false} MembersPrintCanon(v: Json, ms: seq<Member>)
    requires ms != [] && forall i :: 0 <= i < |ms| ==>
      ms[i].value < v && IsText(ms[i].key) && Representable(ms[i].value)
    ensures EncodeMembers(v, ms).Some? <==> forall i :: 0 <= i < |ms| ==> Supported(ms[i].value)
    ensures EncodeMembers(v, ms).Some? ==>
      && (forall i :: 0 <= i < |ms| ==> IsText(CanonMembers(v, ms)[i].key) && Printable(CanonMembers(v, ms)[i].value))
      && EncodeMembers(v, ms) == Some(PrintMembers(CanonMembers(v, ms)))
    decreases v, 0, |ms|
  {
    hide Quote, Supported, Printable, Canon;
    EncodePrintsCanon(ms[0].value);
    if |ms| > 1 {
      MembersPrintCanon(v, ms[1..]);
      var c := CanonMembers(v, ms);
      assert c[1..] == CanonMembers(v, ms[1..]);
      MembersSupported(ms);
      if EncodeMembers(v, ms).Some? {
        forall i | 0 <= i < |ms| ensures IsText(c[i].key) && Printable(c[i].value) {
          if i > 0 { assert c[i] == c[1..][i - 1]; }
        }
      }
    }
  }

  lemma MembersSupported(ms: seq<Member>)
    requires ms != []
    ensures (forall i :: 0 <= i < |ms| ==> Supported(ms[i].value)) <==>
            Supported(ms[0].value) && forall i :: 0 <= i < |ms[1..]| ==> Supported(ms[1..][i].value)
  {
    hide Supported;
    if Supported(ms[0].value) && forall i :: 0 <= i < |ms[1..]| ==> Supported(ms[1..][i].value) {
      forall i | 0 <= i < |ms| ensures Supported(ms[i].value) {
        if i > 0 { assert ms[i] == ms[1..][i - 1]; }
      }
    }
  }

  /** A decoder recovers every supported value from its text, in canonical form. */
  lemma DecodeEncode(v: Json)
    requires Representable(v) && Supported(v)
    ensures Encode(v).Some? && Decode(Encode(v).value) == Some(Canon(v))
  {
    EncodePrintsCanon(v);
    ReadsValue(Canon(v), []);
    assert PrintValue(Canon(v)) + [] == PrintValue(Canon(v));
  }

  // ------------------------------------------------------------------ sameness of values

  /** Equal up to the order of members and to members that are undefined, at every depth. */
  ghost predicate Same(v: Json, w: Json)
    decreases v, 1
  {
    match (v, w)
    case (Arr(a), Arr(b)) => |a| == |b| && forall i :: 0 <= i < |a| ==> Same(a[i], b[i])
    case (Obj(a), Obj(b)) =>
      && (forall i {:trigger FoundIn(a[i], b)} :: 0 <= i < |a| && a[i].value != Undefined ==> FoundIn(a[i], b))
      && (forall j {:trigger Finds(v, b[j])} :: 0 <= j < |b| && b[j].value != Undefined ==> Finds(v, b[j]))
    case _ => v == w
  }

  /** Some defined member has this member's key and the same value. */
  ghost predicate FoundIn(x: Member, b: seq<Member>)
    decreases x
  {
    exists j :: 0 <= j < |b| && b[j].key == x.key && b[j].value != Undefined && Same(x.value, b[j].value)
  }

  ghost predicate Finds(v: Json, y: Member)
    requires v.Obj?
    decreases v, 0
  {
    var a := v.members;
    exists i :: 0 <= i < |a| && a[i].key == y.key && a[i].value != Undefined && Same(a[i].value, y.value)
  }

  lemma KeyOrder()
    ensures Order(ByKey)
  {
    LexOrder();
    forall a, b, c | ByKey(a, b) && ByKey(b, c) ensures ByKey(a, c) { LexTransitive(a.key, b.key, c.key); }
    forall a, b ensures ByKey(a, b) || ByKey(b, a) { LexTotal(a.key, b.key); }
  }

  /** Strictly increasing keys. */
  ghost predicate Increasing(ms: seq<Member>) {
    forall i, j :: 0 <= i < j < |ms| ==> ms[i].key != ms[j].key && LexLe(ms[i].key, ms[j].key)
  }

  lemma {:induction false} DefinedDistinct(ms: seq<Member>)
    requires DistinctKeys(ms)
    ensures DistinctKeys(Defined(ms))
  {
    if ms != [] {
      assert forall i, j :: 0 <= i < j < |ms[1..]| ==> ms[1..][i] == ms[i + 1] && ms[1..][j] == ms[j + 1];
      DefinedDistinct(ms[1..]);
      var r := Defined(ms[1..]);
      forall k | 0 <= k < |r| ensures r[k].key != ms[0].key {
        assert r[k] in r;
        assert r[k] in ms[1..];
        var j :| 0 <= j < |ms[1..]| && ms[1..][j] == r[k];
        assert ms[j + 1] == r[k];
      }
    }
  }

  /** Occurrences of a key, to carry distinctness through a permutation. */
  lemma DistinctPermutation(a: seq<Member>, b: seq<Member>)
    requires DistinctKeys(a) && multiset(a) == multiset(b)
    ensures DistinctKeys(b)
  {
    SameMembers(a, b);
    assert Distinct(a);
    DistinctRearranged(a, b);
    forall i, j | 0 <= i < j < |b| ensures b[i].key != b[j].key {
      assert b[i] in b && b[j] in b;
      var k :| 0 <= k < |a| && a[k] == b[i];
      var l :| 0 <= l < |a| && a[l] == b[j];
    }
  }

  lemma EntriesIncreasing(ms: seq<Member>)
    requires DistinctKeys(ms)
    ensures Increasing(Entries(ms))
  {
    DefinedDistinct(ms);
    KeyOrder();
    SortSorts(Defined(ms), ByKey);
    DistinctPermutation(Defined(ms), Entries(ms));
  }

  lemma FirstKeyLeast(a: seq<Member>, m: Member)
    requires Increasing(a) && m in a
    ensures LexLe(a[0].key, m.key) && (m.key == a[0].key ==> m == a[0])
  {
    var i :| 0 <= i < |a| && a[i] == m;
    LexTotal(m.key, m.key);
  }

  lemma NonemptyHasMember(b: seq<Member>)
    ensures b != [] ==> exists m :: m in b
  {
    if b != [] { assert b[0] in b; }
  }

  /** A set of members has one enumeration in key order. */
  lemma {:induction false} IncreasingUnique(a: seq<Member>, b: seq<Member>)
    requires Increasing(a) && Increasing(b) && forall m :: m in a <==> m in b
    ensures a == b
  {
    if a == [] {
      NonemptyHasMember(b);
    } else {
      assert a[0] in b;
      assert b[0] in a;
      FirstKeyLeast(a, b[0]);
      FirstKeyLeast(b, a[0]);
      LexAntisymmetric(a[0].key, b[0].key);
      TailIncreasing(a);
      TailIncreasing(b);
      forall m ensures m in a[1..] <==> m in b[1..] {
        assert m in a[1..] <==> m in a && m != a[0];
        assert m in b[1..] <==> m in b && m != b[0];
      }
      IncreasingUnique(a[1..], b[1..]);
      assert a == [a[0]] + a[1..] && b == [b[0]] + b[1..];
    }
  }

  lemma TailIncreasing(a: seq<Member>)
    requires Increasing(a) && a != []
    ensures Increasing(a[1..]) && forall m :: m in a[1..] <==> m in a && m != a[0]
  {
    forall m | m in a && m != a[0] ensures m in a[1..] {
      var i :| 0 <= i < |a| && a[i] == m;
      assert a[1..][i - 1] == m;
    }
    forall m | m in a[1..] ensures m in a && m != a[0] {
      var i :| 0 <= i < |a[1..]| && a[1..][i] == m;
      assert a[i + 1] == m;
    }
  }

  /** The members of an object's canonical form. */
  function MembersOf(v: Json): seq<Member>
    requires v.Obj?
  {
    CanonMembers(v, Entries(v.members))
  }

  lemma CanonIncreasing(v: Json)
    requires v.Obj? && Representable(v)
    ensures Increasing(MembersOf(v))
  {
    EntriesIncreasing(v.members);
  }

  /** The canonical spelling of a defined member. */
  function CanonOf(m: Member): Member { Member(m.key, Canon(m.value)) }

  /** Canonical members come from entries... */
  lemma CanonMemberFrom(v: Json, m: Member) returns (i: nat)
    requires v.Obj? && m in MembersOf(v)
    ensures i < |v.members| && v.members[i].value != Undefined && m == CanonOf(v.members[i])
  {
    hide Canon, Entries, CanonMembers;
    var es := Entries(v.members);
    var c := CanonMembers(v, es);
    var k :| 0 <= k < |c| && c[k] == m;
    assert es[k] in es;
    assert es[k] in v.members;
    i :| 0 <= i < |v.members| && v.members[i] == es[k];
  }

  /** ...and every defined member gives one. */
  lemma CanonMemberOf(v: Json, i: nat)
    requires v.Obj? && i < |v.members| && v.members[i].value != Undefined
    ensures CanonOf(v.members[i]) in MembersOf(v)
  {
    var es := Entries(v.members);
    var c := CanonMembers(v, es);
    assert v.members[i] in v.members;
    assert v.members[i] in es;
    var k :| 0 <= k < |es| && es[k] == v.members[i];
    assert c[k] == CanonOf(v.members[i]);
  }

  lemma MemberBelow(v: Json, i: nat)
    requires v.Obj? && i < |v.members| && Representable(v)
    ensures v.members[i].value < v && Representable(v.members[i].value)
  {
    assert v.members[i] in v.members;
  }

  lemma ItemBelow(v: Json, i: nat)
    requires v.Arr? && i < |v.items| && Representable(v)
    ensures v.items[i] < v && Representable(v.items[i])
  {
    assert v.items[i] in v.items;
  }

  /** Same values have the same canonical form. */
  lemma {:induction false} SameHasOneCanon(v: Json, w: Json)
    requires Representable(v) && Representable(w) && Same(v, w)
    ensures Canon(v) == Canon(w)
    decreases v, 2
  {
    if v.Arr? && w.Arr? {
      hide Representable;
      SameItems(v, w);
    } else if v.Obj? && w.Obj? {
      hide Representable, Same;
      SameObjects(v, w);
    }
  }

  lemma {:induction false} SameItems(v: Json, w: Json)
    requires v.Arr? && w.Arr? && Representable(v) && Representable(w) && Same(v, w)
    ensures CanonItems(v, v.items) == CanonItems(w, w.items)
    decreases v, 1
  {
    hide Representable, Canon;
    forall i | 0 <= i < |v.items| ensures Canon(v.items[i]) == Canon(w.items[i]) {
      ItemBelow(v, i);
      ItemBelow(w, i);
      SameHasOneCanon(v.items[i], w.items[i]);
    }
  }

  lemma {:induction false} SameObjects(v: Json, w: Json)
    requires v.Obj? && w.Obj? && Representable(v) && Representable(w) && Same(v, w)
    ensures MembersOf(v) == MembersOf(w)
    decreases v, 1
  {
    hide *;
    CanonIncreasing(v);
    CanonIncreasing(w);
    forall m ensures m in MembersOf(v) <==> m in MembersOf(w) {
      if m in MembersOf(v) { SameMemberThere(v, w, m); }
      if m in MembersOf(w) { SameMemberBack(v, w, m); }
    }
    IncreasingUnique(MembersOf(v), MembersOf(w));
  }

  lemma SameMemberIn(v: Json, w: Json, i: nat) returns (j: nat)
    requires v.Obj? && w.Obj? && Same(v, w) && i < |v.members| && v.members[i].value != Undefined
    ensures j < |w.members| && w.members[j].key == v.members[i].key && w.members[j].value != Undefined
    ensures Same(v.members[i].value, w.members[j].value)
  {
    var a, b := v.members, w.members;
    assert FoundIn(a[i], b);
    j :| 0 <= j < |b| && b[j].key == a[i].key && b[j].value != Undefined && Same(a[i].value, b[j].value);
  }

  lemma SameMemberOf(v: Json, w: Json, j: nat) returns (i: nat)
    requires v.Obj? && w.Obj? && Same(v, w) && j < |w.members| && w.members[j].value != Undefined
    ensures i < |v.members| && v.members[i].key == w.members[j].key && v.members[i].value != Undefined
    ensures Same(v.members[i].value, w.members[j].value)
  {
    var a, b := v.members, w.members;
    assert Finds(v, b[j]);
    i :| 0 <= i < |a| && a[i].key == b[j].key && a[i].value != Undefined && Same(a[i].value, b[j].value);
  }

  lemma {:induction false} SameMemberThere(v: Json, w: Json, m: Member)
    requires v.Obj? && w.Obj? && Representable(v) && Representable(w) && Same(v, w)
    requires m in MembersOf(v)
    ensures m in MembersOf(w)
    decreases v, 0
  {
    hide MembersOf, Representable, Canon, Same;
    var i := CanonMemberFrom(v, m);
    var j := SameMemberIn(v, w, i);
    MemberBelow(v, i);
    MemberBelow(w, j);
    SameHasOneCanon(v.members[i].value, w.members[j].value);
    CanonMemberOf(w, j);
  }

  lemma {:induction false} SameMemberBack(v: Json, w: Json, m: Member)
    requires v.Obj? && w.Obj? && Representable(v) && Representable(w) && Same(v, w)
    requires m in MembersOf(w)
    ensures m in MembersOf(v)
    decreases v, 0
  {
    hide MembersOf, Representable, Canon, Same;
    var j := CanonMemberFrom(w, m);
    var i := SameMemberOf(v, w, j);
    MemberBelow(v, i);
    MemberBelow(w, j);
    SameHasOneCanon(v.members[i].value, w.members[j].value);
    CanonMemberOf(v, i);
  }

  /** Values with one canonical form are the same. */
  lemma {:induction false} OneCanonIsSame(v: Json, w: Json)
    requires Representable(v) && Representable(w) && Canon(v) == Canon(w)
    ensures Same(v, w)
    decreases v, 2
  {
    if v.Arr? && w.Arr? {
      hide Representable;
      OneCanonItems(v, w);
    } else if v.Obj? && w.Obj? {
      hide Representable;
      OneCanonObjects(v, w);
    }
  }

  lemma {:induction false} OneCanonItems(v: Json, w: Json)
    requires v.Arr? && w.Arr? && Representable(v) && Representable(w)
    requires CanonItems(v, v.items) == CanonItems(w, w.items)
    ensures |v.items| == |w.items| && forall i :: 0 <= i < |v.items| ==> Same(v.items[i], w.items[i])
    decreases v, 1
  {
    hide Representable, Canon, Same;
    forall i | 0 <= i < |v.items| ensures Same(v.items[i], w.items[i]) {
      ItemBelow(v, i);
      ItemBelow(w, i);
      assert CanonItems(v, v.items)[i] == CanonItems(w, w.items)[i];
      OneCanonIsSame(v.items[i], w.items[i]);
    }
  }

  lemma {:induction false} OneCanonObjects(v: Json, w: Json)
    requires v.Obj? && w.Obj? && Representable(v) && Representable(w)
    requires MembersOf(v) == MembersOf(w)
    ensures Same(v, w)
    decreases v, 1
  {
    hide MembersOf, Representable, Canon;
    var a, b := v.members, w.members;
    forall i | 0 <= i < |a| && a[i].value != Undefined ensures FoundIn(a[i], b) {
      var j := CounterpartIn(v, w, i);
    }
    forall j | 0 <= j < |b| && b[j].value != Undefined ensures Finds(v, b[j]) {
      var i := CounterpartOf(v, w, j);
    }
  }

  lemma {:induction false} CounterpartIn(v: Json, w: Json, i: nat) returns (j: nat)
    requires v.Obj? && w.Obj? && Representable(v) && Representable(w)
    requires MembersOf(v) == MembersOf(w)
    requires i < |v.members| && v.members[i].value != Undefined
    ensures j < |w.members| && w.members[j].key == v.members[i].key && w.members[j].value != Undefined
    ensures Same(v.members[i].value, w.members[j].value)
    decreases v, 0
  {
    hide MembersOf, Representable, Canon;
    CanonMemberOf(v, i);
    j := CanonMemberFrom(w, CanonOf(v.members[i]));
    MemberBelow(v, i);
    MemberBelow(w, j);
    OneCanonIsSame(v.members[i].value, w.members[j].value);
  }

  lemma {:induction false} CounterpartOf(v: Json, w: Json, j: nat) returns (i: nat)
    requires v.Obj? && w.Obj? && Representable(v) && Representable(w)
    requires MembersOf(v) == MembersOf(w)
    requires j < |w.members| && w.members[j].value != Undefined
    ensures i < |v.members| && v.members[i].key == w.members[j].key && v.members[i].value != Undefined
    ensures Same(v.members[i].value, w.members[j].value)
    decreases v, 0
  {
    hide MembersOf, Representable, Canon;
    CanonMemberOf(w, j);
    i := CanonMemberFrom(v, CanonOf(w.members[j]));
    MemberBelow(v, i);
    MemberBelow(w, j);
    OneCanonIsSame(v.members[i].value, w.members[j].value);
  }

  /** Support depends on the canonical form alone, so the same values are refused together. */
  lemma {:induction false} SupportedCanon(v: Json)
    requires Representable(v)
    ensures Supported(v) <==> Printable(Canon(v))
    decreases v
  {
    match v
    case Arr(items) =>
      var c := CanonItems(v, items);
      forall i | 0 <= i < |items| ensures Supported(items[i]) <==> Printable(c[i]) {
        ItemBelow(v, i);
        SupportedCanon(items[i]);
      }
      if Printable(Canon(v)) {
        forall x | x in items ensures Supported(x) {
          var i :| 0 <= i < |items| && items[i] == x;
          assert c[i] in c;
        }
      }
    case Obj(ms) =>
      if Printable(Canon(v)) {
        forall m | m in ms ensures m.value == Undefined || Supported(m.value) {
          var i :| 0 <= i < |ms| && ms[i] == m;
          MemberBelow(v, i);
          if m.value != Undefined {
            CanonMemberOf(v, i);
            SupportedCanon(m.value);
          }
        }
      }
      if Supported(v) { EncodePrintsCanon(v); }
    case _ =>
  }

  /**
   Commitment is exact: two values encode alike, or are both refused, exactly when they are the same up to
   member order and undefined members or are both unsupported.
   */
  lemma EncodingIsIdentity(v: Json, w: Json)
    requires Representable(v) && Representable(w)
    ensures Encode(v) == Encode(w) <==> Same(v, w) || (!Supported(v) && !Supported(w))
  {
    hide Encode, Decode, Same, Supported, Representable, Canon, PrintValue, Printable;
    EncodePrintsCanon(v);
    EncodePrintsCanon(w);
    if Same(v, w) {
      SupportedCanon(v);
      SupportedCanon(w);
      SameHasOneCanon(v, w);
    } else if Supported(v) && Supported(w) && Encode(v) == Encode(w) {
      DecodeEncode(v);
      DecodeEncode(w);
      OneCanonIsSame(v, w);
    }
  }
}
