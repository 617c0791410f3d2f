/**
  The request filters at the edge of the API server (server/src/index.ts): parsing
  the comma-separated allowed-origins setting, matching a request's `Origin` against
  an exact or wildcard pattern (the origin of section 7 of RFC 6454), the CORS allow
  decision, and the rate limiter's skip rule.

  URL parsing (`new URL(origin)`) is a parameter: a function from the origin string
  to its protocol (with the trailing ':') and host, or None where `new URL` throws.
 */
module ServerEdge {
  import opened Wrappers
  import Text

  datatype ParsedUrl = ParsedUrl(protocol: string, host: string)

  /** The trimmed, non-empty pieces, in order. */
  function CleanOrigins(pieces: seq<string>): (r: seq<string>)
    ensures forall o :: o in r ==> o != ""
    ensures |r| <= |pieces|
  {
    if |pieces| == 0 then []
    else
      var o := Text.Trim(pieces[0]);
      if o == "" then CleanOrigins(pieces[1..]) else [o] + CleanOrigins(pieces[1..])
  }

  /** An entry survives exactly when it is the non-empty trim of some piece. */
  lemma {:induction false} CleanOriginsMembers(pieces: seq<string>, o: string)
    ensures o in CleanOrigins(pieces) <==> o != "" && exists p :: p in pieces && Text.Trim(p) == o
  {
    if |pieces| > 0 {
      CleanOriginsMembers(pieces[1..], o);
      if o != "" && exists p :: p in pieces && Text.Trim(p) == o {
        var p :| p in pieces && Text.Trim(p) == o;
        if p != pieces[0] {
          assert p in pieces[1..];
        }
      }
      if o in CleanOrigins(pieces[1..]) {
        var p :| p in pieces[1..] && Text.Trim(p) == o;
        assert p in pieces;
      }
    }
  }

  /**
    `parseAllowedOrigins`: nothing for an absent or empty setting; otherwise the
    comma-separated entries, trimmed, with the empty ones dropped.
   */
  function ParseAllowedOrigins(raw: Option<string>): (r: seq<string>)
    ensures raw.None? || raw.value == "" ==> r == []
    ensures forall o :: o in r ==> o != ""
  {
    if raw.None? || raw.value == "" then [] else CleanOrigins(Text.Split(raw.value, ','))
  }

  /** A configured origin is listed exactly when it is a non-blank comma-separated entry of the setting, trimmed. */
  lemma ParseAllowedOriginsMembers(raw: string, o: string)
    ensures o in ParseAllowedOrigins(Some(raw)) <==> o != "" && exists p :: p in Text.Split(raw, ',') && Text.Trim(p) == o
    ensures o in ParseAllowedOrigins(Some(raw)) ==> Text.Trim(o) == o
  {
    CleanOriginsMembers(Text.Split(raw, ','), o);
    if o in ParseAllowedOrigins(Some(raw)) {
      var p :| p in Text.Split(raw, ',') && Text.Trim(p) == o;
      Text.TrimIdempotent(p);
    }
    if raw == "" {
      assert Text.Split(raw, ',') == [""];
      assert Text.Trim("") == "";
    }
  }

  /** A host matches a host pattern when it is that host or a subdomain of it. */
  predicate HostMatches(host: string, hostPattern: string)
  {
    host == hostPattern || Text.EndsWith(host, "." + hostPattern)
  }

  /**
    Subdomain matching is on a label boundary: a host that merely ends with the
    pattern's text, such as "evilvercel.app" for "vercel.app", does not match.
   */
  lemma LookAlikeRejected(prefix: string, hostPattern: string)
    requires prefix != "" && prefix[|prefix| - 1] != '.'
    ensures !HostMatches(prefix + hostPattern, hostPattern)
  {
    var h := prefix + hostPattern;
    var suffix := "." + hostPattern;
    assert h[|h| - |suffix|] == prefix[|prefix| - 1];
    if Text.EndsWith(h, suffix) {
      assert false;
    }
  }

  /** `isOriginAllowedByPattern` */
  function IsOriginAllowedByPattern(origin: string, pattern: string, parseUrl: string -> Option<ParsedUrl>): (r: bool)
    ensures !Text.Contains(pattern, "*") ==> (r <==> origin == pattern)
    ensures Text.Contains(pattern, "*") && parseUrl(origin).None? ==> !r
  {
    if !Text.Contains(pattern, "*") then origin == pattern
    else
      match Text.IndexOf(pattern, "://")
      case None =>
        var hostPattern := Text.ReplaceFirst(pattern, "*.", "");
        (match parseUrl(origin)
         case None => false
         case Some(u) => HostMatches(u.host, hostPattern))
      case Some(k) =>
        var scheme := pattern[..k + 3];
        var hostPattern := Text.ReplaceFirst(pattern[k + 3..], "*.", "");
        (match parseUrl(origin)
         case None => false
         case Some(u) => u.protocol + "//" == scheme && HostMatches(u.host, hostPattern))
  }

  /** The first occurrence is pinned down by an occurrence with none before it. */
  lemma IndexOfAt(s: string, sub: string, k: nat)
    requires Text.OccursAt(s, sub, k)
    requires forall j: nat :: j < k ==> !Text.OccursAt(s, sub, j)
    ensures Text.IndexOf(s, sub) == Some(k)
  {
  }

  /**
    A pattern made of a protocol, "//", "*." and a host (such as "https:" "//" "*." "vercel.app")
    admits exactly the origins that parse, have that protocol, and whose host is that
    host or a subdomain of it.
   */
  lemma SchemeWildcardMatch(protocol: string, hostPattern: string, origin: string, parseUrl: string -> Option<ParsedUrl>)
    requires |protocol| >= 1 && protocol[|protocol| - 1] == ':' && ':' !in protocol[..|protocol| - 1]
    ensures IsOriginAllowedByPattern(origin, protocol + "//*." + hostPattern, parseUrl) <==>
      parseUrl(origin).Some? && parseUrl(origin).value.protocol == protocol &&
      HostMatches(parseUrl(origin).value.host, hostPattern)
  {
    var pattern := protocol + "//*." + hostPattern;
    var n := |protocol|;
    assert Text.OccursAt(pattern, "*", n + 2);
    assert Text.Contains(pattern, "*");
    assert Text.OccursAt(pattern, "://", n - 1);
    forall j: nat | j < n - 1
      ensures !Text.OccursAt(pattern, "://", j)
    {
      assert pattern[j] == protocol[..n - 1][j];
    }
    IndexOfAt(pattern, "://", n - 1);
    assert pattern[..n + 2] == protocol + "//";
    var rest := pattern[n + 2..];
    assert rest == "*." + hostPattern;
    assert Text.OccursAt(rest, "*.", 0);
    IndexOfAt(rest, "*.", 0);
    assert Text.ReplaceFirst(rest, "*.", "") == hostPattern;
    if parseUrl(origin).Some? {
      var u := parseUrl(origin).value;
      if u.protocol + "//" == protocol + "//" {
        assert u.protocol == (u.protocol + "//")[..|u.protocol|];
      }
    }
  }

  /**
    A wildcard pattern without a scheme, "*." and a host (such as "*.vercel.app"),
    compares hosts only: it admits exactly the origins that parse and whose host is
    that host or a subdomain of it, whatever their protocol.
   */
  lemma HostWildcardMatch(hostPattern: string, origin: string, parseUrl: string -> Option<ParsedUrl>)
    requires !Text.Contains("*." + hostPattern, "://")
    ensures IsOriginAllowedByPattern(origin, "*." + hostPattern, parseUrl) <==>
      parseUrl(origin).Some? && HostMatches(parseUrl(origin).value.host, hostPattern)
  {
    var pattern := "*." + hostPattern;
    assert Text.OccursAt(pattern, "*", 0);
    assert Text.Contains(pattern, "*");
    assert Text.OccursAt(pattern, "*.", 0);
    IndexOfAt(pattern, "*.", 0);
    assert Text.ReplaceFirst(pattern, "*.", "") == hostPattern;
  }

  /** `process.env.CLIENT_URL || 'http://localhost:3000'` */
  function FallbackOrigin(clientUrl: Option<string>): (r: string)
    ensures r != ""
    ensures clientUrl.Some? && clientUrl.value != "" ==> r == clientUrl.value
    ensures clientUrl.None? || clientUrl.value == "" ==> r == "http://localhost:3000"
  {
    Text.OrElse(clientUrl.GetOr(""), "http://localhost:3000")
  }

  /** Some configured pattern admits the origin (`allowedOriginPatterns.some(...)`). */
  predicate AllowedByPatterns(origin: string, patterns: seq<string>, parseUrl: string -> Option<ParsedUrl>)
  {
    exists i :: 0 <= i < |patterns| && IsOriginAllowedByPattern(origin, patterns[i], parseUrl)
  }

  /**
    The CORS origin callback: a request without an `Origin` is always allowed;
    otherwise the origin is allowed exactly when some pattern admits it or it is the
    fallback client origin.
   */
  function CorsAllows(origin: Option<string>, patterns: seq<string>, clientUrl: Option<string>,
                      parseUrl: string -> Option<ParsedUrl>): (r: bool)
    ensures origin.None? || origin.value == "" ==> r
    ensures origin.Some? && origin.value != "" ==>
      (r <==> AllowedByPatterns(origin.value, patterns, parseUrl) || origin.value == FallbackOrigin(clientUrl))
    ensures origin.Some? && origin.value in patterns && !Text.Contains(origin.value, "*") ==> r
  {
    if origin.None? || origin.value == "" then true
    else
      var o := origin.value;
      assert forall i :: 0 <= i < |patterns| && patterns[i] == o && !Text.Contains(o, "*") ==>
        IsOriginAllowedByPattern(o, patterns[i], parseUrl);
      AllowedByPatterns(o, patterns, parseUrl) || o == FallbackOrigin(clientUrl)
  }

  /**
    With neither setting given, only requests without an origin and requests from
    "http://localhost:3000" pass.
   */
  lemma CorsDefaultConfiguration(origin: string, parseUrl: string -> Option<ParsedUrl>)
    requires origin != ""
    ensures CorsAllows(Some(origin), ParseAllowedOrigins(None), None, parseUrl) <==> origin == "http://localhost:3000"
  {
  }

  /**
    The limiter's `skip`: the two health paths and the Render health prober (any
    user agent containing "Render/1.0"; a missing header reads as empty) are not
    counted.
   */
  function LimiterSkips(path: string, userAgent: Option<string>): (r: bool)
    ensures path == "/health" || path == "/api/health" ==> r
    ensures userAgent.Some? && Text.Contains(userAgent.value, "Render/1.0") ==> r
    ensures r ==> path == "/health" || path == "/api/health" || (userAgent.Some? && Text.Contains(userAgent.value, "Render/1.0"))
  {
    var ua := userAgent.GetOr("");
    if path == "/health" || path == "/api/health" then true
    else Text.Contains(ua, "Render/1.0")
  }

  /** Without a user agent, only the two health paths are skipped. */
  lemma NoAgentOnlyHealthSkips(path: string)
    ensures LimiterSkips(path, None) <==> path == "/health" || path == "/api/health"
  {
    assert Text.OccursAt("Render/1.0", "Render/1.0", 0);
    assert !Text.Contains("", "Render/1.0");
  }
}
