/**
 * Request building on the front end: the full URL of an endpoint and the
 * headers of an authenticated request. The `Authorization` header carries
 * the session token as a bearer credential in the syntax of section 2.1 of
 * RFC 6750; `ParseBearer` is that syntax read back, the partner of
 * `AuthHeaders`.
 */
module Api {
  import opened Common

  const ContentType: string := "Content-Type"
  const Authorization: string := "Authorization"
  const Json: string := "application/json"

  /** `buildApiUrl`: the configured base URL followed directly by the endpoint path, no separator inserted. */
  function BuildApiUrl(baseUrl: string, endpoint: string): (url: string)
    ensures |url| == |baseUrl| + |endpoint|
    ensures url[..|baseUrl|] == baseUrl && url[|baseUrl|..] == endpoint
  {
    baseUrl + endpoint
  }

  /**
   * `getAuthHeaders`: a JSON content type always, and a bearer credential
   * exactly when the token is truthy (neither null nor "").
   */
  function AuthHeaders(token: Option<string>): (h: map<string, string>)
    ensures ContentType in h && h[ContentType] == Json
    ensures Authorization in h <==> Truthy(token)
    ensures Truthy(token) ==> h[Authorization] == "Bearer " + token.value
    ensures h.Keys == if Truthy(token) then {ContentType, Authorization} else {ContentType}
    ensures |h| == if Truthy(token) then 2 else 1
  {
    var headers := map[ContentType := Json];
    if Truthy(token) then headers[Authorization := "Bearer " + token.value] else headers
  }

  /** A character of the `b64token` production of section 2.1 of RFC 6750 (other than the trailing '='). */
  predicate TokenChar(c: char) {
    || 'A' <= c <= 'Z' || 'a' <= c <= 'z' || '0' <= c <= '9'
    || c == '-' || c == '.' || c == '_' || c == '~' || c == '+' || c == '/'
  }

  /** `b64token = 1*( ALPHA / DIGIT / "-" / "." / "_" / "~" / "+" / "/" ) *"="` */
  predicate B64Token(t: string) {
    exists k :: 1 <= k <= |t| && B64Split(t, k)
  }

  /** `t[..k]` is the non-empty body of a b64token and `t[k..]` its '=' padding. */
  predicate B64Split(t: string, k: int)
    requires 1 <= k <= |t|
  {
    (forall i :: 0 <= i < k ==> TokenChar(t[i])) && (forall i :: k <= i < |t| ==> t[i] == '=')
  }

  /** The length of the run of spaces at the front of `s`. */
  function LeadingSpaces(s: string): (n: nat)
    ensures n <= |s|
    ensures forall i :: 0 <= i < n ==> s[i] == ' '
    ensures n < |s| ==> s[n] != ' '
  {
    if |s| > 0 && s[0] == ' ' then 1 + LeadingSpaces(s[1..]) else 0
  }

  /**
   * Reads an `Authorization` value as `credentials = "Bearer" 1*SP b64token`
   * (section 2.1 of RFC 6750): the token when the value has that shape,
   * None otherwise.
   */
  function ParseBearer(value: string): (r: Option<string>)
    ensures r.Some? ==> B64Token(r.value) && |value| > 6 + |r.value| && value[..6] == "Bearer"
    ensures r.Some? ==> value[|value| - |r.value|..] == r.value
    ensures r.Some? ==> value[6] == ' ' && forall i :: 6 <= i < |value| - |r.value| ==> value[i] == ' '
  {
    if |value| < 7 || value[..6] != "Bearer" || value[6] != ' ' then None
    else
      var rest := value[6..];
      var n := LeadingSpaces(rest);
      var t := rest[n..];
      if B64Token(t) then Some(t) else None
  }

  /** The first character of a b64token is never a space. */
  lemma B64TokenStartsWithTokenChar(t: string)
    requires B64Token(t)
    ensures |t| > 0 && TokenChar(t[0]) && t[0] != ' '
  {
    var k :| 1 <= k <= |t| && B64Split(t, k);
    assert TokenChar(t[0]);
  }

  /**
   * Round trip: the header `AuthHeaders` builds from a token in b64token
   * syntax, such as a JWT, reads back as that same token.
   */
  lemma BearerRoundTrip(token: string)
    requires B64Token(token)
    ensures ParseBearer(AuthHeaders(Some(token))[Authorization]) == Some(token)
  {
    B64TokenStartsWithTokenChar(token);
    var value := "Bearer " + token;
    assert value[..6] == "Bearer" && value[6] == ' ';
    var rest := value[6..];
    assert rest == [' '] + token;
    assert LeadingSpaces(token) == 0;
    assert LeadingSpaces(rest) == 1 by {
      assert rest[1..] == token;
    }
    assert rest[1..] == token;
  }

  /**
   * `getAuthHeaders` does not check the token's syntax: a truthy token with
   * a space in it yields a header that is not a bearer credential.
   */
  lemma SpacedTokenIsNotBearer()
    ensures Truthy(Some("a b"))
    ensures ParseBearer(AuthHeaders(Some("a b"))[Authorization]).None?
  {
    var value := "Bearer " + "a b";
    var rest := value[6..];
    assert rest == " a b";
    assert rest[1..] == "a b";
    assert LeadingSpaces("a b") == 0;
    assert LeadingSpaces(rest) == 1;
    assert !B64Token("a b") by {
      forall k | 1 <= k <= 3 ensures !B64Split("a b", k) {
        assert !TokenChar("a b"[1]) && "a b"[1] != '=';
      }
    }
  }
}
