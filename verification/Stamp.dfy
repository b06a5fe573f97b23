/** The per-request stamp header (internal/bluelink/stamp.go, internal/bluelink/constants.go). */
module Stamp {
  import opened Wrappers
  import opened Base64
  import opened Powers

  const APP_ID := "014d2225-8495-4735-812d-2616334fd15d"

  // The CFB key constant, broken into lines of sixteen characters.
  const CFB_1 := "RFtoRq/vDXJmRndo"
  const CFB_2 := "ZaZQyfOot7OrIqGV"
  const CFB_3 := "Fj96iY2WL3yyH5Z/"
  const CFB_4 := "pUvlUhqmCxD2t+D6"
  const CFB_5 := "5SQ"
  const CFB_BASE64 := CFB_1 + CFB_2 + CFB_3 + CFB_4 + CFB_5 + "="

  lemma LookupConcat(s: string, t: string)
    requires Lookup(Std, s).Some? && Lookup(Std, t).Some?
    ensures Lookup(Std, s + t).Some?
  {
    LookupSucceedsIff(Std, s);
    LookupSucceedsIff(Std, t);
    LookupSucceedsIff(Std, s + t);
  }

  predicate InAlphabet(c: char) {
    Sextet(Std, c).Some?
  }

  lemma LineIsValid(s: string)
    requires |s| == 16
    requires InAlphabet(s[0]) && InAlphabet(s[1]) && InAlphabet(s[2]) && InAlphabet(s[3])
    requires InAlphabet(s[4]) && InAlphabet(s[5]) && InAlphabet(s[6]) && InAlphabet(s[7])
    requires InAlphabet(s[8]) && InAlphabet(s[9]) && InAlphabet(s[10]) && InAlphabet(s[11])
    requires InAlphabet(s[12]) && InAlphabet(s[13]) && InAlphabet(s[14]) && InAlphabet(s[15])
    ensures Lookup(Std, s).Some?
  {
    LookupSucceedsIff(Std, s);
    forall i | 0 <= i < |s|
      ensures InAlphabet(s[i])
    {
    }
  }

  lemma Line1()
    ensures Lookup(Std, CFB_1).Some? && |CFB_1| == 16
  {
    LineIsValid(CFB_1);
  }

  lemma Line2()
    ensures Lookup(Std, CFB_2).Some? && |CFB_2| == 16
  {
    LineIsValid(CFB_2);
  }

  lemma Line3()
    ensures Lookup(Std, CFB_3).Some? && |CFB_3| == 16
  {
    LineIsValid(CFB_3);
  }

  lemma Line4()
    ensures Lookup(Std, CFB_4).Some? && |CFB_4| == 16
  {
    LineIsValid(CFB_4);
  }

  lemma Line5()
    ensures Lookup(Std, CFB_5).Some? && |CFB_5| == 3
  {
    LookupSucceedsIff(Std, CFB_5);
    assert InAlphabet(CFB_5[0]) && InAlphabet(CFB_5[1]) && InAlphabet(CFB_5[2]);
  }

  /** Sixty-seven characters and one padding character are fifty bytes. */
  lemma FiftyBytes(s: string)
    requires Lookup(Std, s).Some? && |s| == 67
    ensures DecodePadded(Std, s + "=").Some? && |DecodePadded(Std, s + "=").value| == 50
  {
    LookupSucceedsIff(Std, s);
    PaddingComesOff(Std, s);
    JoinedLength(Lookup(Std, s).value);
  }

  lemma FiveLines(s: string, t: string, u: string, v: string, w: string)
    requires Lookup(Std, s).Some? && Lookup(Std, t).Some? && Lookup(Std, u).Some? && Lookup(Std, v).Some? &&
            Lookup(Std, w).Some?
    ensures Lookup(Std, s + t + u + v + w).Some?
  {
    LookupConcat(s, t);
    LookupConcat(s + t, u);
    LookupConcat(s + t + u, v);
    LookupConcat(s + t + u + v, w);
  }

  /** The key constant is well-formed base64 and decodes to fifty bytes. */
  lemma KeyIsFiftyBytes()
    ensures DecodePadded(Std, CFB_BASE64).Some?
    ensures |DecodePadded(Std, CFB_BASE64).value| == 50
  {
    Line1();
    Line2();
    Line3();
    Line4();
    Line5();
    FiveLines(CFB_1, CFB_2, CFB_3, CFB_4, CFB_5);
    FiftyBytes(CFB_1 + CFB_2 + CFB_3 + CFB_4 + CFB_5);
  }

  // ---------------------------------------------------------------------------
  // Exclusive or
  // ---------------------------------------------------------------------------

  /** Bitwise exclusive or of the lowest `width` bits. */
  function XorBits(a: nat, b: nat, width: nat): (x: nat)
    ensures x < Pow2(width)
  {
    if width == 0 then 0 else 2 * XorBits(a / 2, b / 2, width - 1) + (if a % 2 == b % 2 then 0 else 1)
  }

  function XorByte(a: byte, b: byte): byte {
    assert Pow2(8) == 256;
    XorBits(a, b, 8)
  }

  /** The k-th binary digit of a number, the last one first. */
  function Bit(n: nat, k: nat): nat {
    if k == 0 then n % 2 else Bit(n / 2, k - 1)
  }

  /** A bit of the exclusive or is set exactly when the operands differ in it. */
  lemma {:induction false} XorBitsBit(a: nat, b: nat, width: nat, k: nat)
    requires k < width
    ensures Bit(XorBits(a, b, width), k) == 1 <==> Bit(a, k) != Bit(b, k)
  {
    if k > 0 {
      assert XorBits(a, b, width) / 2 == XorBits(a / 2, b / 2, width - 1);
      XorBitsBit(a / 2, b / 2, width - 1, k - 1);
    }
  }

  /** The k-th bit of every byte. */
  lemma XorByteBit(a: byte, b: byte, k: nat)
    requires k < 8
    ensures Bit(XorByte(a, b), k) == 1 <==> Bit(a, k) != Bit(b, k)
  {
    XorBitsBit(a, b, 8, k);
  }

  lemma {:induction false} XorBitsTwice(a: nat, b: nat, width: nat)
    requires b < Pow2(width)
    ensures XorBits(a, XorBits(a, b, width), width) == b
  {
    if width > 0 {
      var rest := XorBits(a / 2, b / 2, width - 1);
      var x := XorBits(a, b, width);
      assert x / 2 == rest && x % 2 == (if a % 2 == b % 2 then 0 else 1);
      XorBitsTwice(a / 2, b / 2, width - 1);
    }
  }

  function XorSeq(a: seq<byte>, b: seq<byte>): seq<byte> {
    var n := if |a| <= |b| then |a| else |b|;
    seq(n, i requires 0 <= i < n => XorByte(a[i], b[i]))
  }

  /** xorTruncate: as long as the shorter operand, byte by byte. */
  method XorTruncate(a: array<byte>, b: array<byte>) returns (out: array<byte>)
    ensures out[..] == XorSeq(a[..], b[..])
    ensures out.Length == if a.Length <= b.Length then a.Length else b.Length
    ensures forall i, k | 0 <= i < out.Length && 0 <= k < 8 :: Bit(out[i], k) == 1 <==> Bit(a[i], k) != Bit(b[i], k)
  {
    var n := if a.Length <= b.Length then a.Length else b.Length;
    out := new byte[n];
    for i := 0 to n
      invariant forall k | 0 <= k < i :: out[k] == XorByte(a[k], b[k])
    {
      out[i] := XorByte(a[i], b[i]);
    }
    forall i, k | 0 <= i < n && 0 <= k < 8
      ensures Bit(out[i], k) == 1 <==> Bit(a[i], k) != Bit(b[i], k)
    {
      XorByteBit(a[i], b[i], k);
    }
  }

  /** Masking again with the same key gives back whatever of the text the key covered. */
  lemma XorSeqTwice(key: seq<byte>, text: seq<byte>)
    ensures XorSeq(key, XorSeq(key, text)) == (if |text| <= |key| then text else text[..|key|])
  {
    assert Pow2(8) == 256;
    forall i | 0 <= i < |XorSeq(key, text)|
      ensures XorByte(key[i], XorSeq(key, text)[i]) == text[i]
    {
      XorBitsTwice(key[i], text[i], 8);
    }
  }

  // ---------------------------------------------------------------------------
  // Decimal times
  // ---------------------------------------------------------------------------

  function Digits(n: nat): string {
    if n < 10 then ['0' + n as char] else Digits(n / 10) + ['0' + (n % 10) as char]
  }

  /** Printing with %d. */
  function Decimal(n: int): string {
    if n < 0 then "-" + Digits(-n) else Digits(n)
  }

  /** What a row of digits stands for, the first one weighing most. */
  function ValueOf(digits: string): int {
    if digits == "" then 0 else (digits[0] as int - '0' as int) * Pow10(|digits| - 1) + ValueOf(digits[1..])
  }

  lemma {:induction false} ValueOfLonger(digits: string, last: char)
    ensures ValueOf(digits + [last]) == 10 * ValueOf(digits) + (last as int - '0' as int)
  {
    var longer := digits + [last];
    if digits == "" {
      assert longer[1..] == "";
    } else {
      assert longer[1..] == digits[1..] + [last];
      ValueOfLonger(digits[1..], last);
      var lead := digits[0] as int - '0' as int;
      assert lead * Pow10(|digits|) == 10 * (lead * Pow10(|digits| - 1));
    }
  }

  lemma {:induction false} DigitsAreBytes(n: nat)
    ensures forall i | 0 <= i < |Digits(n)| :: '0' <= Digits(n)[i] <= '9'
  {
    if n >= 10 {
      DigitsAreBytes(n / 10);
    }
  }

  /** The digits of a number stand for it. */
  lemma {:induction false} DigitsStandForIt(n: nat)
    ensures ValueOf(Digits(n)) == n
  {
    if n < 10 {
      assert Digits(n)[1..] == "";
    } else {
      DigitsStandForIt(n / 10);
      ValueOfLonger(Digits(n / 10), '0' + (n % 10) as char);
    }
  }

  lemma {:induction false} DigitsAreInjective(m: nat, n: nat)
    requires Digits(m) == Digits(n)
    ensures m == n
  {
    var s, t := Digits(m), Digits(n);
    assert s[|s| - 1] == '0' + (m % 10) as char && t[|t| - 1] == '0' + (n % 10) as char;
    if m >= 10 && n >= 10 {
      assert s[..|s| - 1] == Digits(m / 10) && t[..|t| - 1] == Digits(n / 10);
      DigitsAreInjective(m / 10, n / 10);
    }
  }

  function Pow10(k: nat): nat {
    if k == 0 then 1 else 10 * Pow10(k - 1)
  }

  /** A number has at most k digits exactly when it is below the k-th power of ten. */
  lemma {:induction false} DigitCountIff(n: nat, k: nat)
    requires k > 0
    ensures |Digits(n)| <= k <==> n < Pow10(k)
  {
    if n >= 10 && k > 1 {
      DigitCountIff(n / 10, k - 1);
      assert n < 10 * Pow10(k - 1) <==> n / 10 < Pow10(k - 1);
    } else if n >= 10 {
      assert |Digits(n / 10)| >= 1;
      assert Pow10(1) == 10;
    } else {
      AtLeastTen(k);
    }
  }

  lemma {:induction false} AtLeastTen(k: nat)
    requires k > 0
    ensures Pow10(k) >= 10
  {
    if k > 1 {
      AtLeastTen(k - 1);
    }
  }

  // ---------------------------------------------------------------------------
  // Stamps
  // ---------------------------------------------------------------------------

  /** The bytes of a text in which every character is one byte. */
  function TextBytes(s: string): seq<byte> {
    seq(|s|, i requires 0 <= i < |s| => s[i] as int % 256)
  }

  function Plaintext(unix: int): seq<byte> {
    TextBytes(APP_ID + ":" + Decimal(unix))
  }

  function MakeStamp(unix: int): Result<string, string> {
    match DecodePadded(Std, CFB_BASE64)
    case None => Err("decode CFB constant")
    case Some(cfb) => Ok(EncodePadded(Std, XorSeq(cfb, Plaintext(unix))))
  }

  /** What the server recovers from a stamp: decode it and mask it with the key again. */
  function Recover(stamp: string): Option<seq<byte>> {
    match (DecodePadded(Std, CFB_BASE64), DecodePadded(Std, stamp))
    case (Some(cfb), Some(masked)) => Some(XorSeq(cfb, masked))
    case _ => None
  }

  lemma PlaintextLength(unix: int)
    ensures |Plaintext(unix)| == 37 + |Decimal(unix)|
  {
    assert |APP_ID| == 36;
  }

  /** Every stamp is made, and recovers its plaintext up to the key's fifty bytes: all of it exactly
      when the time prints as at most thirteen characters. */
  lemma StampRecoversIff(unix: int)
    ensures MakeStamp(unix).Ok?
    ensures Recover(MakeStamp(unix).value) == Some(if |Decimal(unix)| <= 13 then Plaintext(unix) else Plaintext(unix)[..50])
    ensures Recover(MakeStamp(unix).value) == Some(Plaintext(unix)) <==> |Decimal(unix)| <= 13
  {
    KeyIsFiftyBytes();
    var cfb := DecodePadded(Std, CFB_BASE64).value;
    PaddedRoundTrip(Std, XorSeq(cfb, Plaintext(unix)));
    XorSeqTwice(cfb, Plaintext(unix));
    PlaintextLength(unix);
  }

  /** A stamp is base64 of fifty bytes at most, in each of which exactly those bits are set in which the
      key and the plaintext differ. */
  lemma StampMasksPlaintext(unix: int) returns (key: seq<byte>, masked: seq<byte>)
    ensures DecodePadded(Std, CFB_BASE64) == Some(key)
    ensures MakeStamp(unix).Ok? && DecodePadded(Std, MakeStamp(unix).value) == Some(masked)
    ensures |key| == 50 && |masked| == if |Plaintext(unix)| < 50 then |Plaintext(unix)| else 50
    ensures forall i, k | 0 <= i < |masked| && 0 <= k < 8 ::
              Bit(masked[i], k) == 1 <==> Bit(key[i], k) != Bit(Plaintext(unix)[i], k)
  {
    KeyIsFiftyBytes();
    key := DecodePadded(Std, CFB_BASE64).value;
    masked := XorSeq(key, Plaintext(unix));
    PaddedRoundTrip(Std, masked);
    forall i, k | 0 <= i < |masked| && 0 <= k < 8
      ensures Bit(masked[i], k) == 1 <==> Bit(key[i], k) != Bit(Plaintext(unix)[i], k)
    {
      XorByteBit(key[i], Plaintext(unix)[i], k);
    }
  }

  /** The plaintext, character by character: the application's id, a colon, the time in decimal. */
  lemma PlaintextSpelled(unix: nat) returns (digits: string)
    ensures ValueOf(digits) == unix && forall i | 0 <= i < |digits| :: '0' <= digits[i] <= '9'
    ensures var text := "014d2225-8495-4735-812d-2616334fd15d:" + digits;
            |Plaintext(unix)| == |text| && forall i | 0 <= i < |text| :: Plaintext(unix)[i] == text[i] as int
  {
    digits := Digits(unix);
    DigitsStandForIt(unix);
    DigitsAreBytes(unix);
    var text := "014d2225-8495-4735-812d-2616334fd15d:" + digits;
    IdIsOneByteEach();
    assert APP_ID + ":" + Decimal(unix) == text;
    forall i | 0 <= i < |text|
      ensures text[i] as int < 256
    {
      if i >= 37 {
        assert text[i] == digits[i - 37];
      }
    }
  }

  lemma IdIsOneByteEach()
    ensures |APP_ID + ":"| == 37 && forall i | 0 <= i < 37 :: (APP_ID + ":")[i] as int < 256
  {
  }

  lemma TextBytesOfTime(unix: nat)
    ensures Plaintext(unix)[37..] == TextBytes(Digits(unix))
  {
    assert |APP_ID + ":"| == 37;
    assert (APP_ID + ":" + Decimal(unix))[37..] == Digits(unix);
  }

  lemma DigitBytesAreInjective(m: nat, n: nat)
    requires TextBytes(Digits(m)) == TextBytes(Digits(n))
    ensures m == n
  {
    var s, t := Digits(m), Digits(n);
    DigitsAreBytes(m);
    DigitsAreBytes(n);
    assert |s| == |TextBytes(s)| == |TextBytes(t)| == |t|;
    forall i | 0 <= i < |s|
      ensures s[i] == t[i]
    {
      assert TextBytes(s)[i] == TextBytes(t)[i];
    }
    DigitsAreInjective(m, n);
  }

  /** Among times of at most thirteen digits, different times have different stamps. */
  lemma StampsAreInjective(unix: nat, other: nat)
    requires unix < Pow10(13) && other < Pow10(13)
    requires MakeStamp(unix) == MakeStamp(other)
    ensures unix == other
  {
    DigitCountIff(unix, 13);
    DigitCountIff(other, 13);
    StampRecoversIff(unix);
    StampRecoversIff(other);
    assert Plaintext(unix) == Plaintext(other);
    TextBytesOfTime(unix);
    TextBytesOfTime(other);
    DigitBytesAreInjective(unix, other);
  }

  /** Beyond thirteen digits the last ones are cut off: every such time shares its stamp with a
      different one. */
  lemma LongTimesCollide(unix: nat) returns (other: nat)
    requires unix >= Pow10(13)
    ensures other != unix && MakeStamp(other) == MakeStamp(unix)
  {
    var leading := unix / 10;
    other := leading * 10 + (unix % 10 + 1) % 10;
    DigitCountIff(unix, 13);
    AtLeastTen(13);
    assert other / 10 == leading && other >= 10;
    assert Digits(unix)[..|Digits(leading)|] == Digits(leading) == Digits(other)[..|Digits(leading)|];
    KeyIsFiftyBytes();
    var cfb := DecodePadded(Std, CFB_BASE64).value;
    PlaintextLength(unix);
    PlaintextLength(other);
    forall i | 0 <= i < 50
      ensures Plaintext(unix)[i] == Plaintext(other)[i]
    {
      SamePrefix(unix, other, i);
    }
    assert XorSeq(cfb, Plaintext(unix)) == XorSeq(cfb, Plaintext(other));
  }

  lemma SamePrefix(unix: nat, other: nat, i: nat)
    requires unix >= 10 && other >= 10 && unix / 10 == other / 10
    requires i < 37 + |Digits(unix / 10)|
    ensures i < |Plaintext(unix)| && i < |Plaintext(other)| && Plaintext(unix)[i] == Plaintext(other)[i]
  {
    assert |APP_ID + ":"| == 37;
    if i >= 37 {
      assert (APP_ID + ":" + Decimal(unix))[i] == Digits(unix)[i - 37] == Digits(unix / 10)[i - 37];
      assert (APP_ID + ":" + Decimal(other))[i] == Digits(other)[i - 37] == Digits(other / 10)[i - 37];
    } else {
      assert (APP_ID + ":" + Decimal(unix))[i] == (APP_ID + ":")[i] == (APP_ID + ":" + Decimal(other))[i];
    }
  }
}
