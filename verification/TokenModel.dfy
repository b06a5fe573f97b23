/** The persisted authentication state (internal/bluelink/model.go, internal/bluelink/auth.go).
    Times are integers in nanoseconds. */
module TokenModel {
  import opened Durations

  datatype Tokens = Tokens(accessToken: string, refreshToken: string, deviceID: string, validUntil: int)

  /** Go's zero time is the first instant of year 1: far below any clock reading. */
  const ZERO_TIME: int := -62_135_596_800_000_000_000

  const NO_TOKENS := Tokens("", "", "", ZERO_TIME)

  const MARGIN: int := 120_000_000_000

  predicate Valid(t: Tokens, now: int) {
    t.accessToken != "" && now < t.validUntil - MARGIN
  }

  /** A clock that has at least reached year 1. */
  predicate Plausible(now: int) {
    now >= ZERO_TIME
  }

  function Invalidated(t: Tokens): Tokens {
    t.(validUntil := ZERO_TIME)
  }

  // ---------------------------------------------------------------------------
  // Token responses
  // ---------------------------------------------------------------------------

  datatype TokenResponse = TokenResponse(tokenType: string, accessToken: string, refreshToken: string, expiresIn: int)

  /** What strings.TrimSpace removes: the characters with Unicode's White_Space property. */
  predicate IsSpace(c: char) {
    var code := c as int;
    || 0x09 <= code <= 0x0D || code == 0x20 || code == 0x85 || code == 0xA0
    || code == 0x1680 || 0x2000 <= code <= 0x200A || code == 0x2028 || code == 0x2029
    || code == 0x202F || code == 0x205F || code == 0x3000
  }

  function TrimLeft(s: string): string {
    if s != "" && IsSpace(s[0]) then TrimLeft(s[1..]) else s
  }

  function TrimRight(s: string): string {
    if s != "" && IsSpace(s[|s| - 1]) then TrimRight(s[..|s| - 1]) else s
  }

  function TrimSpace(s: string): string {
    TrimRight(TrimLeft(s))
  }

  function TokensFrom(r: TokenResponse, now: int): Tokens {
    var expires := if r.expiresIn == 0 then 86_400 else r.expiresIn;
    Tokens(TrimSpace(r.tokenType + " " + r.accessToken), r.refreshToken, "", now + expires * SECOND)
  }

  /** postToken's acceptance: only a missing access token is refused. */
  predicate Accepted(r: TokenResponse) {
    r.accessToken != ""
  }

  /** Some character of the authorization value is not white space. */
  predicate NotBlank(s: string) {
    exists i | 0 <= i < |s| :: !IsSpace(s[i])
  }

  lemma {:induction false} TrimLeftEmptyIff(s: string)
    ensures TrimLeft(s) == "" <==> !NotBlank(s)
    ensures TrimLeft(s) != "" ==> !IsSpace(TrimLeft(s)[0])
  {
    if s != "" && IsSpace(s[0]) {
      TrimLeftEmptyIff(s[1..]);
      if i :| 0 <= i < |s| && !IsSpace(s[i]) {
        assert !IsSpace(s[1..][i - 1]);
      }
      if i :| 0 <= i < |s| - 1 && !IsSpace(s[1..][i]) {
        assert !IsSpace(s[i + 1]);
      }
    } else if s != "" {
      assert !IsSpace(s[0]);
    }
  }

  lemma {:induction false} TrimRightKeepsFirst(s: string)
    requires s != "" && !IsSpace(s[0])
    ensures TrimRight(s) != "" && TrimRight(s)[0] == s[0]
  {
    if IsSpace(s[|s| - 1]) {
      TrimRightKeepsFirst(s[..|s| - 1]);
    }
  }

  /** The Authorization value built from an accepted response is non-empty exactly when its token
      type or its access token has a character that is not white space. postToken alone does not
      guarantee that: an access token of blanks is accepted. */
  lemma AccessTokenPresentIff(r: TokenResponse, now: int)
    ensures TokensFrom(r, now).accessToken != "" <==> NotBlank(r.tokenType) || NotBlank(r.accessToken)
  {
    var s := r.tokenType + " " + r.accessToken;
    TrimLeftEmptyIff(s);
    if TrimLeft(s) != "" {
      TrimRightKeepsFirst(TrimLeft(s));
    }
    if i :| 0 <= i < |r.tokenType| && !IsSpace(r.tokenType[i]) {
      assert !IsSpace(s[i]);
    }
    if i :| 0 <= i < |r.accessToken| && !IsSpace(r.accessToken[i]) {
      assert !IsSpace(s[|r.tokenType| + 1 + i]);
    }
    if i :| 0 <= i < |s| && !IsSpace(s[i]) {
      if i < |r.tokenType| {
        assert !IsSpace(r.tokenType[i]);
      } else {
        assert i != |r.tokenType|;
        assert !IsSpace(r.accessToken[i - |r.tokenType| - 1]);
      }
    }
  }

  /** No white space at either end. */
  predicate Trimmed(s: string) {
    s != "" && !IsSpace(s[0]) && !IsSpace(s[|s| - 1])
  }

  /** The stored value is the token type, a blank, and the access token, in this order; the token lasts
      as many seconds as the response says, a day if it does not say. */
  lemma TokensOfResponse(r: TokenResponse, now: int)
    requires Trimmed(r.tokenType) && Trimmed(r.accessToken)
    ensures var t := TokensFrom(r, now);
            && t.accessToken == r.tokenType + " " + r.accessToken
            && t.refreshToken == r.refreshToken && t.deviceID == ""
            && t.validUntil - now == (if r.expiresIn == 0 then 24 * 60 * 60 else r.expiresIn) * 1_000_000_000
  {
    var s := r.tokenType + " " + r.accessToken;
    assert s[0] == r.tokenType[0] && s[|s| - 1] == r.accessToken[|r.accessToken| - 1];
  }

  /** What a refresh leaves: the new set, with the old refresh token carried forward when the
      server did not rotate it, on the same device. */
  function Refreshed(held: Tokens, r: TokenResponse, now: int): Tokens {
    var tok := TokensFrom(r, now);
    tok.(refreshToken := if tok.refreshToken == "" then held.refreshToken else tok.refreshToken, deviceID := held.deviceID)
  }

  /** What a full login leaves. */
  function LoggedIn(device: string, r: TokenResponse, now: int): Tokens {
    TokensFrom(r, now).(deviceID := device)
  }

  /** Equal but for an expiry zeroed after a 401. */
  predicate SameUpToExpiry(held: Tokens, stored: Tokens) {
    held == stored || held == Invalidated(stored)
  }
}
