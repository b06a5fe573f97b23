/** JSON Web Key components to an RSA public key (internal/bluelink/jwk.go), against the encoder
    the mock's certs endpoint uses (internal/mock/server.go; section 6.3.1 of RFC 7518). */
module Jwk {
  import opened Wrappers
  import opened Base64

  datatype PublicKey = PublicKey(n: nat, e: nat)

  const MAX_EXPONENT: int := 0x7FFF_FFFF

  /** big.Int.SetBytes: the bytes as one big-endian number. */
  function SetBytes(bs: seq<byte>): nat {
    if bs == [] then 0 else SetBytes(bs[..|bs| - 1]) * 256 + bs[|bs| - 1]
  }

  /** big.Int.Bytes: the shortest big-endian form, nothing at all for zero. */
  function Bytes(n: nat): seq<byte> {
    if n == 0 then [] else Bytes(n / 256) + [n % 256]
  }

  function TrimPadding(s: string): string {
    if s != "" && s[|s| - 1] == '=' then TrimPadding(s[..|s| - 1]) else s
  }

  function Base64URLDecode(s: string): Option<seq<byte>> {
    DecodeUnpadded(Url, TrimPadding(s))
  }

  function JwkToRSAPublicKey(n: string, e: string): Result<PublicKey, string> {
    var nBytes, eBytes := Base64URLDecode(n), Base64URLDecode(e);
    if nBytes.None? then Err("decode JWK modulus")
    else if eBytes.None? then Err("decode JWK exponent")
    else if nBytes.value == [] || eBytes.value == [] then Err("JWK missing modulus or exponent")
    else if SetBytes(eBytes.value) > MAX_EXPONENT then Err("JWK exponent out of range")
    else Ok(PublicKey(SetBytes(nBytes.value), SetBytes(eBytes.value)))
  }

  /** One component as handleCerts prints it. */
  function CertComponent(n: nat): string {
    EncodeUnpadded(Url, Bytes(n))
  }

  // ---------------------------------------------------------------------------

  lemma {:induction false} SetBytesInvertsBytes(n: nat)
    ensures SetBytes(Bytes(n)) == n
    ensures Bytes(n) == [] <==> n == 0
  {
    if n > 0 {
      SetBytesInvertsBytes(n / 256);
      assert Bytes(n)[..|Bytes(n)| - 1] == Bytes(n / 256);
    }
  }

  function Equals(count: nat): string {
    if count == 0 then "" else Equals(count - 1) + "="
  }

  lemma {:induction false} TrimIgnoresPadding(s: string, count: nat)
    ensures TrimPadding(s + Equals(count)) == TrimPadding(s)
  {
    if count == 0 {
      assert s + Equals(count) == s;
    } else {
      var t := s + Equals(count);
      assert t[..|t| - 1] == s + Equals(count - 1);
      TrimIgnoresPadding(s, count - 1);
    }
  }

  lemma EncodedNeedsNoTrim(bs: seq<byte>)
    ensures TrimPadding(EncodeUnpadded(Url, bs)) == EncodeUnpadded(Url, bs)
  {
    var s := EncodeUnpadded(Url, bs);
    LookupInvertsText(Url, Sextets(bs));
    LookupSucceedsIff(Url, s);
    assert s != "" ==> Sextet(Url, s[|s| - 1]).Some?;
  }

  lemma EncodedComponentDecodes(bs: seq<byte>)
    ensures Base64URLDecode(EncodeUnpadded(Url, bs)) == Some(bs)
  {
    EncodedNeedsNoTrim(bs);
    UnpaddedRoundTrip(Url, bs);
  }

  /** Any amount of padding on either component changes nothing. */
  lemma PaddingIsIgnored(n: string, e: string, nPad: nat, ePad: nat)
    ensures JwkToRSAPublicKey(n + Equals(nPad), e + Equals(ePad)) == JwkToRSAPublicKey(n, e)
  {
    TrimIgnoresPadding(n, nPad);
    TrimIgnoresPadding(e, ePad);
  }

  /** Main result: decoding what the certs endpoint prints gives back the key, exactly when both
      numbers are positive and the exponent fits 31 bits. */
  lemma CertsRoundTripIff(n: nat, e: nat)
    ensures JwkToRSAPublicKey(CertComponent(n), CertComponent(e)) == Ok(PublicKey(n, e))
            <==> n > 0 && 0 < e <= 2_147_483_647
  {
    EncodedComponentDecodes(Bytes(n));
    EncodedComponentDecodes(Bytes(e));
    SetBytesInvertsBytes(n);
    SetBytesInvertsBytes(e);
  }

  /** The keys some component texts are accepted for: exactly those with an exponent of at most
      31 bits. Zero is among them, as a non-empty run of zero bytes. */
  lemma AcceptedKeysIff(key: PublicKey)
    ensures (exists n, e :: JwkToRSAPublicKey(n, e) == Ok(key)) <==> key.e <= 2_147_483_647
  {
    if key.e <= MAX_EXPONENT {
      var nBytes := [0] + Bytes(key.n);
      var eBytes := [0] + Bytes(key.e);
      LeadingZero(Bytes(key.n));
      LeadingZero(Bytes(key.e));
      SetBytesInvertsBytes(key.n);
      SetBytesInvertsBytes(key.e);
      EncodedComponentDecodes(nBytes);
      EncodedComponentDecodes(eBytes);
      assert JwkToRSAPublicKey(EncodeUnpadded(Url, nBytes), EncodeUnpadded(Url, eBytes)) == Ok(key);
    }
  }

  lemma {:induction false} LeadingZero(bs: seq<byte>)
    ensures SetBytes([0] + bs) == SetBytes(bs)
  {
    var with := [0] + bs;
    if bs == [] {
      assert with[..0] == [];
    } else {
      assert with[..|with| - 1] == [0] + bs[..|bs| - 1];
      LeadingZero(bs[..|bs| - 1]);
    }
  }

  function Pow256(k: nat): nat {
    if k == 0 then 1 else 256 * Pow256(k - 1)
  }

  /** Big-endian (section 2 of RFC 7518): the first byte weighs most. */
  lemma {:induction false} FirstByteWeighsMost(first: byte, rest: seq<byte>)
    ensures SetBytes([first] + rest) == first * Pow256(|rest|) + SetBytes(rest)
  {
    var all := [first] + rest;
    if rest == [] {
      assert all[..0] == [];
    } else {
      var n := |rest| - 1;
      assert all[..|all| - 1] == [first] + rest[..n];
      FirstByteWeighsMost(first, rest[..n]);
      assert first * Pow256(n) * 256 == first * Pow256(n + 1);
    }
  }
}
