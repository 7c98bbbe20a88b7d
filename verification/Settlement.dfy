/**
 The settlement profile's encodings: decimal USDC amounts, 32-byte ABI words, the two spellings of a
 32-byte anchor, and the EIP-712 digest. Text is a sequence of character codes.
 */
module Settlement {
  import opened Sorting
  import opened Decimal

  // ------------------------------------------------------------------ money

  const DOT := '.' as int
  const ZERO := '0' as int

  function Zeros(k: nat): (z: seq<int>)
    ensures |z| == k && AllDigits(z)
  {
    seq(k, _ => ZERO)
  }

  /** Whole dollars and up to six fractional digits, padded to six: 10^-6 dollar units. */
  function Amount(whole: seq<int>, frac: seq<int>): nat
    requires AllDigits(whole) && AllDigits(frac) && |frac| <= 6
  {
    Value(whole) * 1_000_000 + Value(frac + Zeros(6 - |frac|))
  }

  /** A decimal amount with one to six fractional digits, in base units of 10^-6; anything else is refused. */
  function UsdcBaseUnits(s: seq<int>): Option<nat> {
    var w := Run(s);
    if w == 0 then None
    else if w == |s| then Some(Amount(s[..w], []))
    else
      var frac := s[w + 1..];
      if s[w] == DOT && 1 <= |frac| <= 6 && AllDigits(frac)
      then Some(Amount(s[..w], frac))
      else None
  }

  /** `s` spells `whole` dollars and the fraction `frac`. */
  ghost predicate Spells(s: seq<int>, whole: seq<int>, frac: seq<int>) {
    && whole != [] && AllDigits(whole) && AllDigits(frac) && |frac| <= 6
    && s == whole + (if frac == [] then [] else [DOT] + frac)
  }

  lemma {:induction false} ValueOfZeros(k: nat)
    ensures Value(Zeros(k)) == 0
  {
    if k > 0 {
      assert Zeros(k)[..k - 1] == Zeros(k - 1);
      ValueOfZeros(k - 1);
    }
  }

  lemma PaddedValue(frac: seq<int>, k: nat)
    requires AllDigits(frac)
    ensures Value(frac + Zeros(k)) == Value(frac) * Pow10(k)
  {
    ValueOfZeros(k);
    ValueConcat(frac, Zeros(k));
  }

  lemma ReadsParts(s: seq<int>, whole: seq<int>, frac: seq<int>)
    requires Spells(s, whole, frac)
    ensures UsdcBaseUnits(s) == Some(Amount(whole, frac))
  {
    var rest := if frac == [] then [] else [DOT] + frac;
    RunOfConcat(whole, rest);
    assert s[..|whole|] == whole;
    if frac != [] {
      assert s[|whole|] == DOT && s[|whole| + 1..] == frac;
    }
  }

  /** The parser reads every spelling of an amount as that amount, in base units. */
  lemma UsdcReadsSpelling(s: seq<int>, whole: seq<int>, frac: seq<int>)
    requires Spells(s, whole, frac)
    ensures UsdcBaseUnits(s) == Some(Value(whole) * 1_000_000 + Value(frac) * Pow10(6 - |frac|))
  {
    AmountOfParts(whole, frac);
    ReadsParts(s, whole, frac);
  }

  lemma AmountOfParts(whole: seq<int>, frac: seq<int>)
    requires AllDigits(whole) && AllDigits(frac) && |frac| <= 6
    ensures Amount(whole, frac) == Value(whole) * 1_000_000 + Value(frac) * Pow10(6 - |frac|)
  {
    PaddedValue(frac, 6 - |frac|);
  }

  /** It reads nothing else: acceptance is exactly being a spelling. */
  lemma UsdcAcceptsExactlySpellings(s: seq<int>)
    ensures UsdcBaseUnits(s).Some? <==> exists whole, frac :: Spells(s, whole, frac)
  {
    if exists whole, frac :: Spells(s, whole, frac) {
      var whole, frac :| Spells(s, whole, frac);
      UsdcReadsSpelling(s, whole, frac);
    }
    if UsdcBaseUnits(s).Some? {
      var w := Run(s);
      if w == |s| {
        assert s[..w] == s;
        assert Spells(s, s, []);
      } else {
        assert s == s[..w] + ([DOT] + s[w + 1..]);
        assert Spells(s, s[..w], s[w + 1..]);
      }
    }
  }

  /** Trailing fractional zeros never change an amount. */
  lemma TrailingZeros(s: seq<int>, whole: seq<int>, frac: seq<int>, k: nat)
    requires Spells(s, whole, frac) && |frac| + k <= 6 && 0 < |frac| + k
    ensures UsdcBaseUnits(whole + [DOT] + (frac + Zeros(k))) == UsdcBaseUnits(s)
  {
    var longer := frac + Zeros(k);
    assert whole + [DOT] + longer == whole + ([DOT] + longer);
    ReadsParts(s, whole, frac);
    ReadsParts(whole + [DOT] + longer, whole, longer);
    assert longer + Zeros(6 - |longer|) == frac + Zeros(6 - |frac|);
  }

  /** `(cents / 100).toFixed(2)`: how a list price in cents is spelled in a contract. */
  function PriceText(cents: nat): seq<int> {
    Print(cents / 100) + [DOT, Digit(cents % 100 / 10), Digit(cents % 10)]
  }

  /** `listAmountMinor`: cents in USDC minor units. */
  function ListAmountMinor(cents: nat): nat { cents * 10_000 }

  /** Quoting a price, spelling it in the contract and converting it for settlement loses nothing. */
  lemma PriceRoundTrip(cents: nat)
    ensures UsdcBaseUnits(PriceText(cents)) == Some(ListAmountMinor(cents))
  {
    var whole := Print(cents / 100);
    var frac := [Digit(cents % 100 / 10), Digit(cents % 10)];
    assert PriceText(cents) == whole + ([DOT] + frac);
    TwoDigits(cents % 100 / 10, cents % 10);
    ValueOfPrint(cents / 100);
    DollarsAndCents(cents);
    hide Value, Print, PriceText, UsdcBaseUnits, Pow10;
    UsdcReadsSpelling(PriceText(cents), whole, frac);
  }

  lemma DollarsAndCents(cents: nat)
    ensures cents / 100 * 1_000_000 + (10 * (cents % 100 / 10) + cents % 10) * 10_000 == ListAmountMinor(cents)
  {
    assert cents == cents / 100 * 100 + cents % 100;
    assert cents % 10 == cents % 100 % 10;
  }

  lemma TwoDigits(a: nat, b: nat)
    requires a < 10 && b < 10
    ensures Value([Digit(a), Digit(b)]) == 10 * a + b && Pow10(4) == 10_000
  {
    var s := [Digit(a), Digit(b)];
    assert s[..1] == [Digit(a)] && s[..1][..0] == [];
    assert Value(s[..1]) == a;
    assert Pow10(4) == 10 * Pow10(3) && Pow10(3) == 10 * Pow10(2) && Pow10(2) == 10 * Pow10(1);
  }

  // ------------------------------------------------------------------ ABI words

  type Byte = b: int | 0 <= b < 256

  function Pow256(k: nat): (p: nat)
    ensures p >= 1
  {
    if k == 0 then 1 else 256 * Pow256(k - 1)
  }

  const TWO_256: nat := 0x1_00000000_00000000_00000000_00000000_00000000_00000000_00000000_00000000

  lemma {:induction false} Pow256Product(a: nat, b: nat)
    ensures Pow256(a) * Pow256(b) == Pow256(a + b)
  {
    if a > 0 {
      Pow256Product(a - 1, b);
      assert Pow256(a) * Pow256(b) == 256 * (Pow256(a - 1) * Pow256(b));
    }
  }

  lemma WordLimit()
    ensures Pow256(32) == TWO_256
  {
    assert Pow256(4) == 0x1_00000000 by {
      assert Pow256(2) == 256 * Pow256(1) && Pow256(3) == 256 * Pow256(2);
    }
    Pow256Product(4, 4);
    Pow256Product(8, 8);
    Pow256Product(16, 16);
  }

  /** The number a big-endian byte string denotes. */
  function FromBytes(s: seq<Byte>): nat {
    if s == [] then 0 else 256 * FromBytes(s[..|s| - 1]) + s[|s| - 1]
  }

  lemma {:induction false} FromBytesBound(s: seq<Byte>)
    ensures FromBytes(s) < Pow256(|s|)
  {
    if s != [] { FromBytesBound(s[..|s| - 1]); }
  }

  lemma {:induction false} FromBytesInjective(s: seq<Byte>, t: seq<Byte>)
    requires |s| == |t| && FromBytes(s) == FromBytes(t)
    ensures s == t
  {
    if s != [] {
      FromBytesInjective(s[..|s| - 1], t[..|t| - 1]);
      assert s == s[..|s| - 1] + [s[|s| - 1]] && t == t[..|t| - 1] + [t[|t| - 1]];
    }
  }

  lemma {:induction false} FromBytesZeros(s: seq<Byte>)
    requires forall i :: 0 <= i < |s| ==> s[i] == 0
    ensures FromBytes(s) == 0
  {
    if s != [] { FromBytesZeros(s[..|s| - 1]); }
  }

  lemma {:induction false} FromBytesConcat(s: seq<Byte>, t: seq<Byte>)
    ensures FromBytes(s + t) == FromBytes(s) * Pow256(|t|) + FromBytes(t)
  {
    if t == [] {
      assert s + t == s;
    } else {
      var t' := t[..|t| - 1];
      assert (s + t)[..|s + t| - 1] == s + t';
      FromBytesConcat(s, t');
      assert FromBytes(s) * Pow256(|t|) == 256 * (FromBytes(s) * Pow256(|t'|));
    }
  }

  /** One byte peeled off `x` and put in front of the bytes already written. */
  lemma PeelByte(x: nat, b: Byte, done: seq<Byte>)
    requires b == x % 256
    ensures (x / 256) * Pow256(|done| + 1) + FromBytes([b] + done) == x * Pow256(|done|) + FromBytes(done)
  {
    PrependedByte(b, done);
    var q, p := x / 256, Pow256(|done|);
    assert x == 256 * q + b;
    Distribute(q, b, p);
  }

  lemma PrependedByte(b: Byte, done: seq<Byte>)
    ensures FromBytes([b] + done) == b * Pow256(|done|) + FromBytes(done)
  {
    FromBytesConcat([b], done);
    assert [b][..0] == [];
    assert FromBytes([b]) == b;
  }

  lemma Distribute(q: nat, b: nat, p: nat)
    ensures q * (256 * p) + b * p == (256 * q + b) * p
  {
  }

  /** The `k`-byte big-endian word of a number. */
  function ToBytes(n: nat, k: nat): (r: seq<Byte>)
    ensures |r| == k
  {
    if k == 0 then [] else ToBytes(n / 256, k - 1) + [n % 256]
  }

  lemma {:induction false} ToBytesValue(n: nat, k: nat)
    requires n < Pow256(k)
    ensures FromBytes(ToBytes(n, k)) == n
  {
    if k > 0 {
      assert n / 256 < Pow256(k - 1);
      ToBytesValue(n / 256, k - 1);
      assert ToBytes(n, k)[..k - 1] == ToBytes(n / 256, k - 1);
    }
  }

  lemma NothingPeeled(n: nat)
    ensures n * Pow256(0) + FromBytes([]) == n
  {
  }

  lemma Overflows(x: nat, done: seq<Byte>, n: nat)
    requires x > 0 && x * Pow256(32) + FromBytes(done) == n
    ensures n >= TWO_256
  {
    WordLimit();
    assert x * Pow256(32) >= Pow256(32);
  }

  lemma OneWord(word: seq<Byte>, n: nat)
    requires |word| == 32 && FromBytes(word) == n
    ensures word == ToBytes(n, 32)
  {
    FromBytesBound(word);
    ToBytesValue(n, 32);
    FromBytesInjective(word, ToBytes(n, 32));
  }

  lemma WholeWord(word: seq<Byte>)
    requires |word| == 32
    ensures FromBytes(word) < TWO_256
  {
    FromBytesBound(word);
    WordLimit();
  }

  /** `wordUint`: the 32-byte big-endian word of `n`, refused when negative and exactly from 2^256 on. */
  method WordUint(n: int) returns (r: Option<seq<Byte>>)
    ensures r.Some? <==> 0 <= n < TWO_256
    ensures r.Some? ==> |r.value| == 32 && FromBytes(r.value) == n && r.value == ToBytes(n, 32)
  {
    hide Pow256, FromBytes, ToBytes;
    if n < 0 {
      return None;
    }
    var out := new Byte[32](_ => 0);
    var x := n;
    var i := 31;
    assert out[32..] == [];
    NothingPeeled(n);
    while i >= 0 && x > 0
      invariant -1 <= i <= 31 && 0 <= x
      invariant forall j :: 0 <= j <= i ==> out[j] == 0
      invariant x * Pow256(31 - i) + FromBytes(out[i + 1..]) == n
    {
      ghost var done := out[i + 1..];
      var b := x % 256;
      PeelByte(x, b, done);
      out[i] := b;
      x := x / 256;
      assert out[i + 1..] == done;
      assert out[i..] == [b] + done;
      i := i - 1;
    }
    if x > 0 {
      assert out[0..] == out[..];
      Overflows(x, out[..], n);
      return None;
    }
    assert out[..] == out[..i + 1] + out[i + 1..];
    FromBytesZeros(out[..i + 1]);
    FromBytesConcat(out[..i + 1], out[i + 1..]);
    WholeWord(out[..]);
    OneWord(out[..], n);
    r := Some(out[..]);
  }

  // ------------------------------------------------------------------ two spellings of 32 bytes

  const SHA_PREFIX: seq<int> := ['s' as int, 'h' as int, 'a' as int, '2' as int, '5' as int, '6' as int, ':' as int]
  const HEX_PREFIX: seq<int> := ['0' as int, 'x' as int]

  function Strip(s: seq<int>): seq<int> {
    if SHA_PREFIX <= s then s[7..] else if HEX_PREFIX <= s then s[2..] else s
  }

  function LowerChar(c: int): int { if 'A' as int <= c <= 'Z' as int then c + 32 else c }

  function Lower(s: seq<int>): seq<int> { seq(|s|, i requires 0 <= i < |s| => LowerChar(s[i])) }

  function Nibble(c: int): Option<int> {
    if '0' as int <= c <= '9' as int then Some(c - '0' as int)
    else if 'a' as int <= c <= 'f' as int then Some(c - 'a' as int + 10)
    else if 'A' as int <= c <= 'F' as int then Some(c - 'A' as int + 10)
    else None
  }

  predicate IsHex(s: seq<int>) { |s| % 2 == 0 && forall i :: 0 <= i < |s| ==> Nibble(s[i]).Some? }

  function HexBytes(s: seq<int>): (r: seq<Byte>)
    requires IsHex(s)
    ensures |r| == |s| / 2
  {
    seq(|s| / 2, i requires 0 <= i < |s| / 2 => 16 * Nibble(s[2 * i]).value + Nibble(s[2 * i + 1]).value)
  }

  /** `fromHex`, which drops one more `0x` of its own. */
  function FromHex(s: seq<int>): Option<seq<Byte>> {
    var h := if HEX_PREFIX <= s then s[2..] else s;
    if IsHex(h) then Some(HexBytes(h)) else None
  }

  function WordBytes32(s: seq<int>): Option<seq<Byte>> {
    match FromHex(Strip(s))
    case None => None
    case Some(raw) => if |raw| == 32 then Some(raw) else None
  }

  predicate Bytes32Equal(a: seq<int>, b: seq<int>) {
    var ha, hb := Lower(Strip(a)), Lower(Strip(b));
    |ha| == 64 && ha == hb
  }

  lemma NibbleIgnoresCase(c: int, d: int)
    requires Nibble(c).Some? && Nibble(d).Some?
    ensures LowerChar(c) == LowerChar(d) <==> Nibble(c) == Nibble(d)
    ensures 0 <= Nibble(c).value < 16
  {
  }

  lemma LowerHexIffSameBytes(s: seq<int>, t: seq<int>)
    requires IsHex(s) && IsHex(t) && |s| == |t|
    ensures Lower(s) == Lower(t) <==> HexBytes(s) == HexBytes(t)
  {
    if HexBytes(s) == HexBytes(t) {
      forall i | 0 <= i < |s| ensures Lower(s)[i] == Lower(t)[i] { SameBytesSameChar(s, t, i); }
    }
    if Lower(s) == Lower(t) {
      forall k | 0 <= k < |s| / 2 ensures HexBytes(s)[k] == HexBytes(t)[k] { SameCharsSameByte(s, t, k); }
    }
  }

  lemma SameBytesSameChar(s: seq<int>, t: seq<int>, i: nat)
    requires IsHex(s) && IsHex(t) && |s| == |t| && i < |s| && HexBytes(s) == HexBytes(t)
    ensures LowerChar(s[i]) == LowerChar(t[i])
  {
    var k := i / 2;
    assert i == 2 * k || i == 2 * k + 1;
    ByteAt(s, k);
    ByteAt(t, k);
    NibbleIgnoresCase(s[2 * k], t[2 * k]);
    NibbleIgnoresCase(t[2 * k], s[2 * k]);
    NibbleIgnoresCase(s[2 * k + 1], t[2 * k + 1]);
    NibbleIgnoresCase(t[2 * k + 1], s[2 * k + 1]);
    hide LowerChar, HexBytes, Nibble;
  }

  lemma ByteAt(s: seq<int>, k: nat)
    requires IsHex(s) && 2 * k + 1 < |s|
    ensures k < |HexBytes(s)| && Nibble(s[2 * k]).Some? && Nibble(s[2 * k + 1]).Some?
    ensures HexBytes(s)[k] == 16 * Nibble(s[2 * k]).value + Nibble(s[2 * k + 1]).value
  {
  }

  lemma SameCharsSameByte(s: seq<int>, t: seq<int>, k: nat)
    requires IsHex(s) && IsHex(t) && |s| == |t| && k < |s| / 2 && Lower(s) == Lower(t)
    ensures HexBytes(s)[k] == HexBytes(t)[k]
  {
    assert Lower(s)[2 * k] == Lower(t)[2 * k] && Lower(s)[2 * k + 1] == Lower(t)[2 * k + 1];
    NibbleIgnoresCase(s[2 * k], t[2 * k]);
    NibbleIgnoresCase(s[2 * k + 1], t[2 * k + 1]);
  }

  lemma SixtyFourStripped(s: seq<int>)
    requires WordBytes32(s).Some? && |Strip(s)| == 64
    ensures IsHex(Strip(s)) && WordBytes32(s) == Some(HexBytes(Strip(s)))
  {
    assert !(HEX_PREFIX <= Strip(s));
  }

  /**
   Two anchors that both denote 32 bytes compare equal exactly when the bytes are equal and each
   carries one prefix at most; `0x` after another prefix is read by the word encoder and refused here.
   */
  lemma AnchorEqualityIsByteEquality(a: seq<int>, b: seq<int>)
    requires WordBytes32(a).Some? && WordBytes32(b).Some?
    ensures Bytes32Equal(a, b) <==>
            WordBytes32(a) == WordBytes32(b) && |Strip(a)| == 64 && |Strip(b)| == 64
  {
    if |Strip(a)| == 64 && |Strip(b)| == 64 {
      SixtyFourStripped(a);
      SixtyFourStripped(b);
      LowerHexIffSameBytes(Strip(a), Strip(b));
    }
  }

  /** The doubled prefix does occur: one value, two accepted spellings, reported unequal. */
  lemma DoubledPrefixDiffers()
    ensures exists a, b :: WordBytes32(a).Some? && WordBytes32(a) == WordBytes32(b) && !Bytes32Equal(a, b)
  {
    var hex := seq(64, _ => ZERO);
    var a, b := HEX_PREFIX + hex, SHA_PREFIX + (HEX_PREFIX + hex);
    assert a[0] == ZERO && SHA_PREFIX[0] != ZERO;
    assert !(SHA_PREFIX <= a);
    assert a[2..] == hex && HEX_PREFIX <= a;
    assert b[7..] == HEX_PREFIX + hex && SHA_PREFIX <= b;
    assert Strip(b) == HEX_PREFIX + hex;
    assert (HEX_PREFIX + hex)[2..] == hex;
    assert hex[1] == ZERO && !(HEX_PREFIX <= hex);
    assert WordBytes32(a) == Some(HexBytes(hex)) == WordBytes32(b);
  }

  /** The lower-case digit of a value below sixteen. */
  function HexDigit(d: int): int { if d < 10 then '0' as int + d else 'a' as int + d - 10 }

  /** Two lower-case digits a byte. */
  function ToHex(bytes: seq<Byte>): (r: seq<int>)
    ensures |r| == 2 * |bytes|
  {
    seq(2 * |bytes|, i requires 0 <= i < 2 * |bytes| =>
      HexDigit(if i % 2 == 0 then bytes[i / 2] / 16 else bytes[i / 2] % 16))
  }

  lemma NibbleReads(c: int, d: int)
    requires 0 <= d < 16
    ensures Nibble(c) == Some(d) <==> LowerChar(c) == HexDigit(d)
  {
  }

  /** Two digits are of a byte exactly when they are its own, in any case. */
  lemma PairReads(c: int, d: int, b: Byte)
    ensures Nibble(c).Some? && Nibble(d).Some? && 16 * Nibble(c).value + Nibble(d).value == b <==>
      LowerChar(c) == HexDigit(b / 16) && LowerChar(d) == HexDigit(b % 16)
  {
    NibbleReads(c, b / 16);
    NibbleReads(d, b % 16);
    if Nibble(c).Some? && Nibble(d).Some? {
      NibbleIgnoresCase(c, c);
      NibbleIgnoresCase(d, d);
    }
    hide Nibble, LowerChar, HexDigit;
  }

  lemma HexAt(bytes: seq<Byte>, k: nat)
    requires k < |bytes|
    ensures ToHex(bytes)[2 * k] == HexDigit(bytes[k] / 16) && ToHex(bytes)[2 * k + 1] == HexDigit(bytes[k] % 16)
  {
    hide HexDigit;
    assert 2 * k / 2 == k && 2 * k % 2 == 0 && (2 * k + 1) / 2 == k && (2 * k + 1) % 2 == 1;
  }

  lemma DigitsRead(h: seq<int>, bytes: seq<Byte>)
    requires IsHex(h) && HexBytes(h) == bytes
    ensures Lower(h) == ToHex(bytes)
  {
    hide Nibble, LowerChar, HexDigit;
    forall i | 0 <= i < |h| ensures Lower(h)[i] == ToHex(bytes)[i] {
      var k := i / 2;
      ByteAt(h, k);
      PairReads(h[2 * k], h[2 * k + 1], bytes[k]);
      HexAt(bytes, k);
      hide ToHex, HexBytes, IsHex;
      assert i == 2 * k || i == 2 * k + 1;
    }
  }

  lemma DigitsDenote(h: seq<int>, bytes: seq<Byte>)
    requires Lower(h) == ToHex(bytes)
    ensures IsHex(h) && HexBytes(h) == bytes
  {
    hide Nibble, LowerChar, HexDigit;
    assert |h| == |Lower(h)| == 2 * |bytes|;
    forall k | 0 <= k < |bytes|
      ensures Nibble(h[2 * k]).Some? && Nibble(h[2 * k + 1]).Some?
      ensures 16 * Nibble(h[2 * k]).value + Nibble(h[2 * k + 1]).value == bytes[k]
    {
      HexAt(bytes, k);
      assert Lower(h)[2 * k] == LowerChar(h[2 * k]) && Lower(h)[2 * k + 1] == LowerChar(h[2 * k + 1]);
      PairReads(h[2 * k], h[2 * k + 1], bytes[k]);
    }
    hide ToHex, Lower;
    forall i | 0 <= i < |h| ensures Nibble(h[i]).Some? { assert i == 2 * (i / 2) || i == 2 * (i / 2) + 1; }
  }

  /** What denotes given bytes, exactly: their hexadecimal digits in any case, after one `0x` or none. */
  lemma HexReadsExactly(s: seq<int>, bytes: seq<Byte>)
    ensures FromHex(s) == Some(bytes) <==> Lower(if HEX_PREFIX <= s then s[2..] else s) == ToHex(bytes)
  {
    var h := if HEX_PREFIX <= s then s[2..] else s;
    if FromHex(s) == Some(bytes) { DigitsRead(h, bytes); }
    if Lower(h) == ToHex(bytes) { DigitsDenote(h, bytes); }
    hide IsHex, HexBytes, Lower, ToHex;
  }

  /** An anchor is read as 32 bytes exactly from their digits, after `sha256:` or `0x` and one more `0x`, if any. */
  lemma AnchorReadsExactly(s: seq<int>, bytes: seq<Byte>)
    ensures var t := if Chars("sha256:") <= s then s[7..] else if Chars("0x") <= s then s[2..] else s;
      WordBytes32(s) == Some(bytes) <==>
        |bytes| == 32 && Lower(if Chars("0x") <= t then t[2..] else t) == ToHex(bytes)
  {
    assert SHA_PREFIX == Chars("sha256:") && HEX_PREFIX == Chars("0x");
    HexReadsExactly(Strip(s), bytes);
    hide FromHex, Lower, ToHex, Chars, SHA_PREFIX, HEX_PREFIX;
  }

  // ------------------------------------------------------------------ EIP-712

  type Hasher = seq<int> -> seq<int>

  /** An ideal hash: distinct inputs, distinct 32-symbol digests. */
  ghost predicate Ideal(keccak: Hasher) {
    && (forall x :: |keccak(x)| == 32)
    && (forall x, y :: keccak(x) == keccak(y) ==> x == y)
  }

  datatype Domain = Domain(name: seq<int>, version: seq<int>, chainId: seq<int>, contract: Option<seq<int>>)

  /** White space and line terminators, as trimming takes them off. */
  predicate Blank(c: int) {
    || 0x09 <= c <= 0x0D || c == 0x20 || c == 0xA0 || c == 0x1680 || 0x2000 <= c <= 0x200A
    || c == 0x2028 || c == 0x2029 || c == 0x202F || c == 0x205F || c == 0x3000 || c == 0xFEFF
  }

  function Chars(s: string): seq<int> { seq(|s|, i requires 0 <= i < |s| => s[i] as int) }

  const DOMAIN_TYPE := "EIP712Domain(string name,string version,uint256 chainId)"
  const VAULT_DOMAIN_TYPE := "EIP712Domain(string name,string version,uint256 chainId,address verifyingContract)"

  function Flatten(words: seq<seq<int>>): seq<int> {
    if words == [] then [] else words[0] + Flatten(words[1..])
  }

  ghost predicate Words(words: seq<seq<int>>) { forall i :: 0 <= i < |words| ==> |words[i]| == 32 }

  function DomainSeparator(keccak: Hasher, d: Domain): seq<int> {
    if d.contract.Some?
    then keccak(Flatten([keccak(Chars(VAULT_DOMAIN_TYPE)), keccak(d.name), keccak(d.version), d.chainId,
      d.contract.value]))
    else keccak(Flatten([keccak(Chars(DOMAIN_TYPE)), keccak(d.name), keccak(d.version), d.chainId]))
  }

  function StructHash(keccak: Hasher, typeString: seq<int>, words: seq<seq<int>>): seq<int> {
    keccak(Flatten([keccak(typeString)] + words))
  }

  function Digest(keccak: Hasher, d: Domain, typeString: seq<int>, words: seq<seq<int>>): seq<int> {
    keccak([0x19, 0x01] + (DomainSeparator(keccak, d) + StructHash(keccak, typeString, words)))
  }

  lemma {:induction false} FlattenLength(a: seq<seq<int>>)
    requires Words(a)
    ensures |Flatten(a)| == 32 * |a|
  {
    if a != [] { FlattenLength(a[1..]); }
  }

  lemma {:induction false} FlattenInjective(a: seq<seq<int>>, b: seq<seq<int>>)
    requires Words(a) && Words(b) && Flatten(a) == Flatten(b)
    ensures a == b
  {
    FlattenLength(a);
    FlattenLength(b);
    if a != [] {
      assert Flatten(a)[..32] == a[0] && Flatten(a)[32..] == Flatten(a[1..]);
      assert Flatten(b)[..32] == b[0] && Flatten(b)[32..] == Flatten(b[1..]);
      FlattenInjective(a[1..], b[1..]);
      assert a == [a[0]] + a[1..] && b == [b[0]] + b[1..];
    }
  }

  ghost predicate WellFormedDomain(d: Domain) {
    |d.chainId| == 32 && (d.contract.Some? ==> |d.contract.value| == 32)
  }

  lemma DomainPinned(keccak: Hasher, d: Domain, e: Domain)
    requires Ideal(keccak) && WellFormedDomain(d) && WellFormedDomain(e)
    requires DomainSeparator(keccak, d) == DomainSeparator(keccak, e)
    ensures d == e
  {
    var wd := if d.contract.Some?
      then [keccak(Chars(VAULT_DOMAIN_TYPE)), keccak(d.name), keccak(d.version), d.chainId, d.contract.value]
      else [keccak(Chars(DOMAIN_TYPE)), keccak(d.name), keccak(d.version), d.chainId];
    var we := if e.contract.Some?
      then [keccak(Chars(VAULT_DOMAIN_TYPE)), keccak(e.name), keccak(e.version), e.chainId, e.contract.value]
      else [keccak(Chars(DOMAIN_TYPE)), keccak(e.name), keccak(e.version), e.chainId];
    assert Flatten(wd) == Flatten(we);
    FlattenInjective(wd, we);
    assert wd[1] == we[1] && wd[2] == we[2] && wd[3] == we[3];
    if d.contract.Some? { assert |we| == 5 && wd[4] == we[4]; } else { assert |we| == 4; }
  }

  /** A digest pins its domain, its struct type and every field word: no signature carries over. */
  lemma DigestPins(keccak: Hasher, d: Domain, e: Domain, t: seq<int>, u: seq<int>, v: seq<seq<int>>, w: seq<seq<int>>)
    requires Ideal(keccak) && WellFormedDomain(d) && WellFormedDomain(e) && Words(v) && Words(w)
    requires Digest(keccak, d, t, v) == Digest(keccak, e, u, w)
    ensures d == e && t == u && v == w
  {
    SeparatorLength(keccak, d);
    SeparatorLength(keccak, e);
    var sd, se := DomainSeparator(keccak, d), DomainSeparator(keccak, e);
    var hd, he := StructHash(keccak, t, v), StructHash(keccak, u, w);
    hide DomainSeparator, StructHash, WellFormedDomain, Words;
    SamePreimage(keccak, sd, hd, se, he);
    DomainPinned(keccak, d, e);
    StructPinned(keccak, t, u, v, w);
  }

  lemma SamePreimage(keccak: Hasher, a: seq<int>, b: seq<int>, c: seq<int>, d: seq<int>)
    requires Ideal(keccak) && |a| == |c| == 32 && keccak([0x19, 0x01] + (a + b)) == keccak([0x19, 0x01] + (c + d))
    ensures a == c && b == d
  {
    var p, q := [0x19, 0x01] + (a + b), [0x19, 0x01] + (c + d);
    assert p == q;
    assert p[2..34] == a && q[2..34] == c && p[34..] == b && q[34..] == d;
  }

  lemma SeparatorLength(keccak: Hasher, d: Domain)
    requires Ideal(keccak)
    ensures |DomainSeparator(keccak, d)| == 32
  {
  }

  /** A struct hash pins the type string and every word. */
  lemma StructPinned(keccak: Hasher, t: seq<int>, u: seq<int>, v: seq<seq<int>>, w: seq<seq<int>>)
    requires Ideal(keccak) && Words(v) && Words(w) && StructHash(keccak, t, v) == StructHash(keccak, u, w)
    ensures t == u && v == w
  {
    var a, b := [keccak(t)] + v, [keccak(u)] + w;
    FlattenInjective(a, b);
    assert a[0] == b[0] && a[1..] == v && b[1..] == w;
  }
}
