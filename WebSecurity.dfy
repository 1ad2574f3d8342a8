/**
 * The back end's security configuration (`WebSecurityConfig`): which
 * request paths need a logged-in user, tried rule by rule with the first
 * matching rule deciding, and the CORS configuration built from the
 * configured front-end URL, one allowed origin per comma-separated entry.
 */
module WebSecurity {
  import opened Strings

  /** What a rule demands of a request. */
  datatype Access = PermitAll | Authenticated

  /** The patterns the rules use, over the path's segments (what follows each "/"). */
  datatype PathPattern =
    | Under(prefix: seq<string>)    // "/a/b/**": the segments start with a, b (nothing more is needed)
    | OneVariable                   // "/{shortUrl}": exactly one segment, not empty
    | AnyRequest                    // `anyRequest()`

  datatype Rule = Rule(pattern: PathPattern, access: Access)

  /** The rules of `filterChain`, in the order they are tried. */
  const Rules: seq<Rule> := [
    Rule(Under(["api", "auth"]), PermitAll),
    Rule(Under(["api", "urls"]), Authenticated),
    Rule(OneVariable, PermitAll),
    Rule(AnyRequest, Authenticated)
  ]

  /** The segments of a request path: the pieces between the slashes after the leading one. */
  function Segments(path: string): (segs: seq<string>)
    requires |path| >= 1 && path[0] == '/'
    ensures |segs| >= 1
    ensures forall i :: 0 <= i < |segs| ==> '/' !in segs[i]
    ensures Join(segs, "/") == path[1..]
  {
    JoinSplit(path[1..], '/');
    Split(path[1..], '/')
  }

  predicate PatternMatches(p: PathPattern, segs: seq<string>) {
    match p
    case Under(prefix) => |prefix| <= |segs| && segs[..|prefix|] == prefix
    case OneVariable => |segs| == 1 && segs[0] != ""
    case AnyRequest => true
  }

  /** The access the first matching rule of `rules` demands; `AnyRequest` closes the list. */
  function FirstMatch(rules: seq<Rule>, segs: seq<string>): (a: Access)
    requires |rules| >= 1 && rules[|rules| - 1].pattern == AnyRequest
    ensures exists k :: 0 <= k < |rules| && rules[k].access == a && PatternMatches(rules[k].pattern, segs)
                        && forall j :: 0 <= j < k ==> !PatternMatches(rules[j].pattern, segs)
  {
    if PatternMatches(rules[0].pattern, segs) then rules[0].access
    else
      var a := FirstMatch(rules[1..], segs);
      var k :| 0 <= k < |rules| - 1 && rules[1..][k].access == a && PatternMatches(rules[1..][k].pattern, segs)
               && forall j :: 0 <= j < k ==> !PatternMatches(rules[1..][j].pattern, segs);
      assert rules[k + 1] == rules[1..][k];
      assert forall j :: 1 <= j < k + 1 ==> rules[j] == rules[1..][j - 1];
      a
  }

  /** The access a request path needs. */
  function AccessFor(path: string): Access
    requires |path| >= 1 && path[0] == '/'
  {
    FirstMatch(Rules, Segments(path))
  }

  /**
   * A request is let through without a login exactly when it is under
   * "/api/auth", or it is a single non-empty segment (a short code, or a
   * page of the front end such as "/login"); everything under "/api/urls"
   * and every other path need a logged-in user.
   */
  lemma PublicExactly(path: string)
    requires |path| >= 1 && path[0] == '/'
    ensures var segs := Segments(path);
      AccessFor(path) == PermitAll <==>
        (|segs| >= 2 && segs[..2] == ["api", "auth"]) || (|segs| == 1 && segs[0] != "")
  {
    var segs := Segments(path);
    var k :| 0 <= k < |Rules| && Rules[k].access == AccessFor(path) && PatternMatches(Rules[k].pattern, segs)
             && forall j :: 0 <= j < k ==> !PatternMatches(Rules[j].pattern, segs);
    var auth := |segs| >= 2 && segs[..2] == ["api", "auth"];
    var urls := |segs| >= 2 && segs[..2] == ["api", "urls"];
    var single := |segs| == 1 && segs[0] != "";
    assert PatternMatches(Rules[0].pattern, segs) == auth;
    assert PatternMatches(Rules[1].pattern, segs) == urls;
    assert PatternMatches(Rules[2].pattern, segs) == single;
    assert urls ==> !auth && !single;
    if k == 0 {
      assert auth;
    } else if k == 1 {
      assert !PatternMatches(Rules[0].pattern, segs);
    } else if k == 2 {
      assert !PatternMatches(Rules[0].pattern, segs);
    } else {
      assert !PatternMatches(Rules[0].pattern, segs) && !PatternMatches(Rules[2].pattern, segs);
    }
  }

  /** Everything under "/api/urls" needs a login, though "/{shortUrl}" comes after it and is public. */
  lemma UrlEndpointsNeedLogin(path: string)
    requires |path| >= 1 && path[0] == '/'
    requires var segs := Segments(path); |segs| >= 2 && segs[..2] == ["api", "urls"]
    ensures AccessFor(path) == Authenticated
  {
    PublicExactly(path);
  }

  const AllowedMethods: seq<string> := ["GET", "POST", "PUT", "DELETE", "OPTIONS"]
  const AllowedHeaders: seq<string> := ["*"]
  /** The path pattern the CORS configuration is registered for. */
  const CorsPathPattern: string := "/**"

  /**
   * The allowed origins `corsConfigurationSource` derives from the
   * configured front-end URL: the URL itself, untouched, when it has no
   * comma; otherwise each piece of its Java split at ',' (trailing empty
   * pieces dropped), trimmed, in order.
   */
  function Origins(frontendUrl: string): (origins: seq<string>)
    ensures ',' !in frontendUrl ==> origins == [frontendUrl]
    ensures ',' in frontendUrl ==>
              && |origins| == |JavaSplit(frontendUrl, ',')|
              && forall i :: 0 <= i < |origins| ==> origins[i] == Trim(JavaSplit(frontendUrl, ',')[i])
    ensures forall i :: 0 <= i < |origins| ==> ',' !in origins[i]
  {
    if ',' !in frontendUrl then [frontendUrl]
    else
      var pieces := JavaSplit(frontendUrl, ',');
      var origins := seq(|pieces|, i requires 0 <= i < |pieces| => Trim(pieces[i]));
      assert forall i :: 0 <= i < |origins| ==> origins[i] == Trim(pieces[i]);
      assert forall i :: 0 <= i < |origins| ==> ',' !in origins[i] by {
        forall i | 0 <= i < |origins| ensures ',' !in origins[i] {
          TrimWithin(pieces[i], ',');
        }
      }
      origins
  }

  /** Trimming only removes characters: what is not in `s` is not in its trim. */
  lemma TrimWithin(s: string, c: char)
    requires c !in s
    ensures c !in Trim(s)
  {
    var k := TrimStart(s, 0);
    var t := Trim(s);
    assert forall i :: 0 <= i < |t| ==> t[i] == s[k + i];
  }

  /** `s` is not empty and neither of its ends is blank. */
  predicate Trimmed(s: string) {
    |s| >= 1 && s[0] > ' ' && s[|s| - 1] > ' '
  }

  /** A string that starts and ends with a non-blank character is its own trim. */
  lemma TrimmedIsFixed(s: string)
    requires Trimmed(s)
    ensures Trim(s) == s
  {
    assert TrimStart(s, 0) == 0;
  }

  /**
   * Writing a list of origins joined by commas configures exactly those
   * origins, when each origin is free of commas and of blanks at its ends.
   */
  lemma {:induction false} OriginsOfJoin(origins: seq<string>)
    requires |origins| >= 1
    requires forall i :: 0 <= i < |origins| ==> ',' !in origins[i] && Trimmed(origins[i])
    ensures Origins(Join(origins, ",")) == origins
  {
    var url := Join(origins, [',']);
    JavaSplitOfJoin(origins);
    if ',' in url {
      var r := Origins(url);
      assert |r| == |origins|;
      forall i | 0 <= i < |origins| ensures r[i] == origins[i] {
        TrimmedIsFixed(origins[i]);
      }
    }
  }

  /** Java-splitting a comma join of comma-free pieces, the last not empty, gives back the pieces. */
  lemma JavaSplitOfJoin(origins: seq<string>)
    requires |origins| >= 1 && origins[|origins| - 1] != ""
    requires forall i :: 0 <= i < |origins| ==> ',' !in origins[i]
    ensures JavaSplit(Join(origins, [',']), ',') == origins
  {
    var url := Join(origins, [',']);
    SplitJoin(origins, ',');
    if ',' !in url {
      SplitWithoutSeparator(url, ',');
    }
  }

  /** A list whose every element is the trim of the matching piece, built up one piece at a time. */
  lemma TrimmedPrefix(origins: seq<string>, pieces: seq<string>, i: nat)
    requires |origins| == |pieces| && i < |pieces|
    requires forall j :: 0 <= j < |origins| ==> origins[j] == Trim(pieces[j])
    ensures origins[..i + 1] == origins[..i] + [Trim(pieces[i])]
  {
  }

  /** A CORS configuration: what `CorsConfiguration` holds once set up. */
  class CorsConfiguration {
    var allowedOrigins: seq<string>
    var allowedMethods: seq<string>
    var allowedHeaders: seq<string>
    var allowCredentials: bool

    /** A fresh configuration allows nothing. */
    constructor ()
      ensures allowedOrigins == [] && allowedMethods == [] && allowedHeaders == [] && !allowCredentials
    {
      allowedOrigins := [];
      allowedMethods := [];
      allowedHeaders := [];
      allowCredentials := false;
    }

    /** `addAllowedOrigin`: appends one origin; nothing else changes. */
    method AddAllowedOrigin(origin: string)
      modifies this`allowedOrigins
      ensures allowedOrigins == old(allowedOrigins) + [origin]
    {
      allowedOrigins := allowedOrigins + [origin];
    }
  }

  /**
   * `corsConfigurationSource`: the configuration it registers for every
   * path allows `Origins(frontendUrl)`, the five methods, any header, and
   * credentials.
   */
  method CorsConfigurationSource(frontendUrl: string) returns (configuration: CorsConfiguration, pattern: string)
    ensures fresh(configuration)
    ensures configuration.allowedOrigins == Origins(frontendUrl)
    ensures configuration.allowedMethods == AllowedMethods && configuration.allowedHeaders == AllowedHeaders
    ensures configuration.allowCredentials
    ensures pattern == CorsPathPattern
  {
    configuration := new CorsConfiguration();
    if ',' in frontendUrl {
      var urls := JavaSplit(frontendUrl, ',');
      ghost var origins := Origins(frontendUrl);
      for i := 0 to |urls|
        invariant configuration.allowedOrigins == origins[..i]
      {
        TrimmedPrefix(origins, urls, i);
        configuration.AddAllowedOrigin(Trim(urls[i]));
      }
      assert origins[..|urls|] == origins;
    } else {
      configuration.AddAllowedOrigin(frontendUrl);
    }
    configuration.allowedMethods := AllowedMethods;
    configuration.allowedHeaders := AllowedHeaders;
    configuration.allowCredentials := true;
    pattern := CorsPathPattern;
  }
}
