/** Base64 with either alphabet (sections 4 and 5 of RFC 4648), as encoding/base64 encodes and
    decodes it: carriage returns and line feeds are skipped, trailing bits are not checked. */
module Base64 {
  import opened Wrappers

  type byte = x: int | 0 <= x < 256

  type sextet = x: int | 0 <= x < 64

  datatype Alphabet = Std | Url

  // ---------------------------------------------------------------------------
  // Bytes and sextets
  // ---------------------------------------------------------------------------

  function FirstSextet(b0: byte): sextet {
    b0 / 4
  }

  function SecondSextet(b0: byte, b1: byte): sextet {
    b0 % 4 * 16 + b1 / 16
  }

  function ThirdSextet(b1: byte, b2: byte): sextet {
    b1 % 16 * 4 + b2 / 64
  }

  function FourthSextet(b2: byte): sextet {
    b2 % 64
  }

  function FilledAfterOne(b0: byte): sextet {
    b0 % 4 * 16
  }

  function FilledAfterTwo(b1: byte): sextet {
    b1 % 16 * 4
  }

  /** Every three bytes as four sextets; one or two bytes over are filled up with zero bits. */
  function Sextets(bs: seq<byte>): seq<sextet> {
    if bs == [] then []
    else if |bs| == 1 then [FirstSextet(bs[0]), FilledAfterOne(bs[0])]
    else if |bs| == 2 then [FirstSextet(bs[0]), SecondSextet(bs[0], bs[1]), FilledAfterTwo(bs[1])]
    else
      [FirstSextet(bs[0]), SecondSextet(bs[0], bs[1]), ThirdSextet(bs[1], bs[2]), FourthSextet(bs[2])]
      + Sextets(bs[3..])
  }

  function Digits64(a: int, b: int, c: int, d: int): int {
    ((a * 64 + b) * 64 + c) * 64 + d
  }

  function Digits256(a: int, b: int, c: int): int {
    (a * 256 + b) * 256 + c
  }

  lemma GroupIsTheSameBits(b0: byte, b1: byte, b2: byte)
    ensures Digits64(FirstSextet(b0), SecondSextet(b0, b1), ThirdSextet(b1, b2), FourthSextet(b2)) == Digits256(b0, b1, b2)
  {
  }

  /** Four sextets are the same 24 bits as the three bytes they come from, the first ones weighing
      most; after one or two bytes over, the bits missing from the last sextets are zero. */
  lemma SextetsAreTheSameBits(b0: byte, b1: byte, b2: byte)
    ensures var xs := Sextets([b0, b1, b2]); |xs| == 4 && Digits64(xs[0], xs[1], xs[2], xs[3]) == Digits256(b0, b1, b2)
    ensures var xs := Sextets([b0, b1]); |xs| == 3 && Digits64(xs[0], xs[1], xs[2], 0) == Digits256(b0, b1, 0)
    ensures var xs := Sextets([b0]); |xs| == 2 && Digits64(xs[0], xs[1], 0, 0) == Digits256(b0, 0, 0)
  {
    assert [b0, b1, b2][3..] == [];
    GroupIsTheSameBits(b0, b1, b2);
    GroupIsTheSameBits(b0, b1, 0);
    GroupIsTheSameBits(b0, 0, 0);
  }

  /** Longer texts are encoded three bytes at a time. */
  lemma SextetsOfMore(b0: byte, b1: byte, b2: byte, rest: seq<byte>)
    ensures Sextets([b0, b1, b2] + rest) == Sextets([b0, b1, b2]) + Sextets(rest)
  {
    var all := [b0, b1, b2] + rest;
    assert all[3..] == rest && [b0, b1, b2][3..] == [];
    assert all[0] == b0 && all[1] == b1 && all[2] == b2;
  }

  function FirstByte(x: sextet, y: sextet): byte {
    x * 4 + y / 16
  }

  function SecondByte(y: sextet, z: sextet): byte {
    y % 16 * 16 + z / 4
  }

  function ThirdByte(z: sextet, w: sextet): byte {
    z % 4 * 64 + w
  }

  /** Every four sextets as three bytes; two or three sextets over give one or two bytes. */
  function Join(xs: seq<sextet>): Option<seq<byte>> {
    if xs == [] then Some([])
    else if |xs| == 1 then None
    else if |xs| == 2 then Some([FirstByte(xs[0], xs[1])])
    else if |xs| == 3 then Some([FirstByte(xs[0], xs[1]), SecondByte(xs[1], xs[2])])
    else
      match Join(xs[4..])
      case None => None
      case Some(rest) => Some([FirstByte(xs[0], xs[1]), SecondByte(xs[1], xs[2]), ThirdByte(xs[2], xs[3])] + rest)
  }

  lemma GroupInverts(b0: byte, b1: byte, b2: byte)
    ensures FirstByte(FirstSextet(b0), SecondSextet(b0, b1)) == b0
    ensures SecondByte(SecondSextet(b0, b1), ThirdSextet(b1, b2)) == b1
    ensures ThirdByte(ThirdSextet(b1, b2), FourthSextet(b2)) == b2
  {
  }

  lemma OneInverts(b0: byte)
    ensures FirstByte(FirstSextet(b0), FilledAfterOne(b0)) == b0
  {
  }

  lemma TwoInvert(b0: byte, b1: byte)
    ensures FirstByte(FirstSextet(b0), SecondSextet(b0, b1)) == b0
    ensures SecondByte(SecondSextet(b0, b1), FilledAfterTwo(b1)) == b1
  {
  }

  lemma JoinGroup(xs: seq<sextet>, x: sextet, y: sextet, z: sextet, w: sextet, rest: seq<byte>)
    requires Join(xs) == Some(rest)
    ensures Join([x, y, z, w] + xs) == Some([FirstByte(x, y), SecondByte(y, z), ThirdByte(z, w)] + rest)
  {
    assert ([x, y, z, w] + xs)[4..] == xs;
  }

  lemma ThreeBytes(bs: seq<byte>)
    requires |bs| >= 3
    ensures bs == [bs[0], bs[1], bs[2]] + bs[3..]
  {
  }

  lemma JoinTwo(x: sextet, y: sextet, b0: byte)
    requires FirstByte(x, y) == b0
    ensures Join([x, y]) == Some([b0])
  {
  }

  lemma JoinThree(x: sextet, y: sextet, z: sextet, b0: byte, b1: byte)
    requires FirstByte(x, y) == b0 && SecondByte(y, z) == b1
    ensures Join([x, y, z]) == Some([b0, b1])
  {
  }

  lemma JoinThreeBytes(bs: seq<byte>)
    requires |bs| >= 3 && Join(Sextets(bs[3..])) == Some(bs[3..])
    ensures Join(Sextets(bs)) == Some(bs)
  {
    GroupInverts(bs[0], bs[1], bs[2]);
    JoinGroup(Sextets(bs[3..]), FirstSextet(bs[0]), SecondSextet(bs[0], bs[1]), ThirdSextet(bs[1], bs[2]),
              FourthSextet(bs[2]), bs[3..]);
    ThreeBytes(bs);
  }

  lemma {:induction false} JoinInvertsSextets(bs: seq<byte>)
    ensures Join(Sextets(bs)) == Some(bs)
  {
    if |bs| == 1 {
      OneInverts(bs[0]);
      JoinTwo(FirstSextet(bs[0]), FilledAfterOne(bs[0]), bs[0]);
      assert bs == [bs[0]];
    } else if |bs| == 2 {
      TwoInvert(bs[0], bs[1]);
      JoinThree(FirstSextet(bs[0]), SecondSextet(bs[0], bs[1]), FilledAfterTwo(bs[1]), bs[0], bs[1]);
      assert bs == [bs[0], bs[1]];
    } else if |bs| >= 3 {
      JoinInvertsSextets(bs[3..]);
      JoinThreeBytes(bs);
    }
  }

  lemma {:induction false} SextetCount(bs: seq<byte>)
    ensures |Sextets(bs)| % 4 == (if |bs| % 3 == 0 then 0 else |bs| % 3 + 1)
  {
    if |bs| >= 3 {
      SextetCount(bs[3..]);
      assert |Sextets(bs)| == 4 + |Sextets(bs[3..])|;
    }
  }

  lemma {:induction false} JoinedLength(xs: seq<sextet>)
    requires |xs| % 4 != 1
    ensures Join(xs).Some?
    ensures |Join(xs).value| == |xs| / 4 * 3 + (if |xs| % 4 == 0 then 0 else |xs| % 4 - 1)
  {
    if |xs| >= 4 {
      JoinedLength(xs[4..]);
    }
  }

  // ---------------------------------------------------------------------------
  // Sextets and characters
  // ---------------------------------------------------------------------------

  function Char(a: Alphabet, x: sextet): char {
    if x < 26 then 'A' + x as char
    else if x < 52 then 'a' + (x - 26) as char
    else if x < 62 then '0' + (x - 52) as char
    else if x == 62 then (if a.Std? then '+' else '-')
    else (if a.Std? then '/' else '_')
  }

  function Sextet(a: Alphabet, c: char): Option<sextet> {
    if 'A' <= c <= 'Z' then Some(c as int - 'A' as int)
    else if 'a' <= c <= 'z' then Some(c as int - 'a' as int + 26)
    else if '0' <= c <= '9' then Some(c as int - '0' as int + 52)
    else if c == (if a.Std? then '+' else '-') then Some(62)
    else if c == (if a.Std? then '/' else '_') then Some(63)
    else None
  }

  /** The alphabets of tables 1 and 2 of RFC 4648, in character codes: upper case, lower case, digits,
      and two characters that tell the alphabets apart. */
  lemma AlphabetsSpelled(a: Alphabet, x: sextet)
    ensures x < 26 ==> Char(a, x) as int == 65 + x
    ensures 26 <= x < 52 ==> Char(a, x) as int == 97 + x - 26
    ensures 52 <= x < 62 ==> Char(a, x) as int == 48 + x - 52
    ensures [Char(Std, 62), Char(Std, 63)] == "+/" && [Char(Url, 62), Char(Url, 63)] == "-_"
  {
  }

  lemma SextetInvertsChar(a: Alphabet, x: sextet)
    ensures Sextet(a, Char(a, x)) == Some(x)
  {
  }

  function Text(a: Alphabet, xs: seq<sextet>): string {
    if xs == [] then "" else [Char(a, xs[0])] + Text(a, xs[1..])
  }

  /** The sextets of a text, if every character is in the alphabet. */
  function Lookup(a: Alphabet, s: string): Option<seq<sextet>> {
    if s == "" then Some([])
    else
      var first, rest := Sextet(a, s[0]), Lookup(a, s[1..]);
      if first.None? || rest.None? then None else Some([first.value] + rest.value)
  }

  lemma {:induction false} LookupInvertsText(a: Alphabet, xs: seq<sextet>)
    ensures Lookup(a, Text(a, xs)) == Some(xs)
    ensures |Text(a, xs)| == |xs|
  {
    if xs != [] {
      var s := Text(a, xs);
      SextetInvertsChar(a, xs[0]);
      LookupInvertsText(a, xs[1..]);
      assert s[0] == Char(a, xs[0]) && s[1..] == Text(a, xs[1..]);
      assert [xs[0]] + xs[1..] == xs;
    }
  }

  lemma {:induction false} LookupSucceedsIff(a: Alphabet, s: string)
    ensures Lookup(a, s).Some? <==> forall i | 0 <= i < |s| :: Sextet(a, s[i]).Some?
    ensures Lookup(a, s).Some? ==> |Lookup(a, s).value| == |s|
  {
    if s != "" {
      LookupSucceedsIff(a, s[1..]);
      assert s == [s[0]] + s[1..];
    }
  }

  // ---------------------------------------------------------------------------
  // Encoding and decoding
  // ---------------------------------------------------------------------------

  function EncodeUnpadded(a: Alphabet, bs: seq<byte>): string {
    Text(a, Sextets(bs))
  }

  function EncodePadded(a: Alphabet, bs: seq<byte>): string {
    EncodeUnpadded(a, bs) + (if |bs| % 3 == 1 then "==" else if |bs| % 3 == 2 then "=" else "")
  }

  function SkipNewlines(s: string): string {
    if s == "" then ""
    else if s[0] == '\r' || s[0] == '\n' then SkipNewlines(s[1..])
    else [s[0]] + SkipNewlines(s[1..])
  }

  function DecodeCharacters(a: Alphabet, s: string): Option<seq<byte>> {
    match Lookup(a, s)
    case None => None
    case Some(xs) => Join(xs)
  }

  function DecodeUnpadded(a: Alphabet, s: string): Option<seq<byte>> {
    DecodeCharacters(a, SkipNewlines(s))
  }

  function DecodePadded(a: Alphabet, s: string): Option<seq<byte>> {
    var t := SkipNewlines(s);
    var n := |t|;
    if n % 4 != 0 then None
    else if n > 0 && t[n - 2] == '=' && t[n - 1] == '=' then DecodeCharacters(a, t[..n - 2])
    else if n > 0 && t[n - 1] == '=' then DecodeCharacters(a, t[..n - 1])
    else DecodeCharacters(a, t)
  }

  lemma {:induction false} NothingToSkip(a: Alphabet, s: string, pad: string)
    requires Lookup(a, s).Some? && forall i | 0 <= i < |pad| :: pad[i] == '='
    ensures SkipNewlines(s + pad) == s + pad
  {
    var t := s + pad;
    if t != "" {
      if s == "" {
        assert t[1..] == s + pad[1..];
        NothingToSkip(a, s, pad[1..]);
      } else {
        assert t[1..] == s[1..] + pad;
        NothingToSkip(a, s[1..], pad);
      }
      assert [t[0]] + t[1..] == t;
    }
  }

  lemma DecodeInvertsEncode(a: Alphabet, bs: seq<byte>)
    ensures DecodeCharacters(a, EncodeUnpadded(a, bs)) == Some(bs)
  {
    LookupInvertsText(a, Sextets(bs));
    JoinInvertsSextets(bs);
  }

  lemma UnpaddedRoundTrip(a: Alphabet, bs: seq<byte>)
    ensures DecodeUnpadded(a, EncodeUnpadded(a, bs)) == Some(bs)
  {
    var s := EncodeUnpadded(a, bs);
    LookupInvertsText(a, Sextets(bs));
    NothingToSkip(a, s, "");
    assert s + "" == s;
    DecodeInvertsEncode(a, bs);
  }

  function Padding(length: nat): string {
    if length % 4 == 2 then "==" else if length % 4 == 3 then "=" else ""
  }

  lemma PaddedLength(length: nat)
    requires length % 4 != 1
    ensures (length + |Padding(length)|) % 4 == 0
  {
  }

  lemma PaddingComesOff(a: Alphabet, s: string)
    requires Lookup(a, s).Some? && |s| % 4 != 1
    ensures DecodePadded(a, s + Padding(|s|)) == DecodeCharacters(a, s)
  {
    var pad := Padding(|s|);
    var t := s + pad;
    NothingToSkip(a, s, pad);
    PaddedLength(|s|);
    LookupSucceedsIff(a, s);
    assert t[..|s|] == s;
    assert |s| > 0 ==> t[|s| - 1] == s[|s| - 1] != '=';
    if pad == "" {
      assert t == s;
    } else {
      assert t[|t| - 1] == '=';
      assert t[|t| - 2] == (if |pad| == 2 then '=' else s[|s| - 1]);
    }
  }

  lemma PaddedRoundTrip(a: Alphabet, bs: seq<byte>)
    ensures DecodePadded(a, EncodePadded(a, bs)) == Some(bs)
  {
    var s := EncodeUnpadded(a, bs);
    LookupInvertsText(a, Sextets(bs));
    SextetCount(bs);
    PaddingComesOff(a, s);
    assert EncodePadded(a, bs) == s + Padding(|s|);
    DecodeInvertsEncode(a, bs);
  }
}
