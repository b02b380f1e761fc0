/**
 * Base-URL selection and URL construction of the web client (web/lib/api.ts).
 *
 * The environment lookup of the public base URL and the server/browser test of
 * the original are parameters here: `publicBase` is the configured base, absent
 * when the variable is not set, and `isServer` is true when the code runs during
 * server-side rendering (no `window`). The thrown configuration error is a
 * `Failure` result.
 */
module Api {
  import opened Wrappers
  import opened Text

  /** The backend's port inside the container, used by server-side rendering. */
  const InternalPort: string := "8001"

  /** What the server-side rewrite puts in place of the matched `:<digits>`. */
  const InternalPortSuffix: string := ":" + InternalPort

  /** The error raised when the public base URL is not configured. */
  datatype ConfigError = BaseNotConfigured

  // ---------------------------------------------------------------------------
  // The pattern /:\d+$/ (no flags)
  // ---------------------------------------------------------------------------

  /**
   * Declarative meaning of a match of /:\d+$/ starting at index `i`: a `:` at
   * `i`, followed by one or more digits that run to the end of the string.
   */
  predicate PortSuffixAt(s: string, i: int) {
    0 <= i && i + 1 < |s| && s[i] == ':' && AllDigits(s[i + 1..])
  }

  /** The pattern matches somewhere in `s`. */
  predicate HasPortSuffix(s: string) {
    exists i :: 0 <= i < |s| && PortSuffixAt(s, i)
  }

  /** The greedy `\d+`: how many digits follow index `k`. */
  function DigitRun(s: string, k: nat): (n: nat)
    requires k <= |s|
    decreases |s| - k
    ensures k + n <= |s|
    ensures forall j :: k <= j < k + n ==> IsDigit(s[j])
    ensures k + n < |s| ==> !IsDigit(s[k + n])
  {
    if k == |s| || !IsDigit(s[k]) then 0 else 1 + DigitRun(s, k + 1)
  }

  /**
   * One match attempt of /:\d+$/ at index `i`: the literal `:`, the greedy
   * digit run, then the end anchor. Backtracking into a shorter digit run
   * cannot reach the end either, so the attempt succeeds exactly when the run
   * is non-empty and reaches the end.
   */
  function MatchPortAt(s: string, i: nat): (matched: bool)
    requires i < |s|
    ensures matched <==> PortSuffixAt(s, i)
  {
    if s[i] != ':' then false
    else
      var n := DigitRun(s, i + 1);
      assert i + 1 + n < |s| ==> s[i + 1..][n] == s[i + 1 + n];
      n > 0 && i + 1 + n == |s|
  }

  /**
   * The left-to-right search of a non-global regular expression: the first
   * index at or after `from` where a match attempt succeeds.
   */
  function FindPortSuffix(s: string, from: nat): (r: Option<nat>)
    decreases |s| - from
    ensures r.Some? ==> from <= r.value && PortSuffixAt(s, r.value)
    ensures r.Some? ==> forall j :: from <= j < r.value ==> !PortSuffixAt(s, j)
    ensures r.None? ==> forall j :: from <= j ==> !PortSuffixAt(s, j)
  {
    if from >= |s| then None
    else if MatchPortAt(s, from) then Some(from)
    else FindPortSuffix(s, from + 1)
  }

  /** The pattern can match at one index at most: it is the last `:` of `s`. */
  lemma PortSuffixUnique(s: string, i: int)
    requires PortSuffixAt(s, i)
    ensures forall j :: PortSuffixAt(s, j) ==> j == i
  {
    forall j | i < j < |s|
      ensures IsDigit(s[j])
    {
      assert s[i + 1..][j - i - 1] == s[j];
    }
    forall j | 0 <= j < i
      ensures !PortSuffixAt(s, j)
    {
      assert s[j + 1..][i - j - 1] == s[i];
    }
  }

  /**
   * `s.replace(/:\d+$/, ":8001")`: the first (and only) match, which runs to
   * the end of `s`, is replaced by the internal port suffix.
   */
  function ReplacePort(s: string): (r: string)
    ensures forall i :: PortSuffixAt(s, i) ==> r == s[..i] + InternalPortSuffix
    ensures !HasPortSuffix(s) ==> r == s
  {
    match FindPortSuffix(s, 0)
    case None => s
    case Some(i) =>
      PortSuffixUnique(s, i);
      s[..i] + InternalPortSuffix
  }

  /** The internal port suffix is itself a match of the pattern. */
  lemma InternalPortSuffixMatches(prefix: string)
    ensures PortSuffixAt(prefix + InternalPortSuffix, |prefix|)
  {
    var t := prefix + InternalPortSuffix;
    assert t[|prefix| + 1..] == InternalPort;
  }

  /** Rewriting the port a second time changes nothing. */
  lemma ReplacePortIdempotent(s: string)
    ensures ReplacePort(ReplacePort(s)) == ReplacePort(s)
  {
    if HasPortSuffix(s) {
      var i :| 0 <= i < |s| && PortSuffixAt(s, i);
      var r := s[..i] + InternalPortSuffix;
      InternalPortSuffixMatches(s[..i]);
      assert r[..i] == s[..i];
    }
  }

  /** A string that ends in `:8001` has the pattern's match at that `:`. */
  lemma EndsWithInternalPortMatches(s: string)
    ensures EndsWith(s, InternalPortSuffix) ==> PortSuffixAt(s, |s| - |InternalPortSuffix|)
  {
    if EndsWith(s, InternalPortSuffix) {
      var k := |s| - |InternalPortSuffix|;
      assert s[k..] == InternalPortSuffix;
      assert s[k + 1..] == s[k..][1..];
    }
  }

  /** The rewritten base ends in `:8001` exactly when the pattern matched. */
  lemma ReplacePortEndsWithInternalPort(s: string)
    ensures EndsWith(ReplacePort(s), InternalPortSuffix) <==> HasPortSuffix(s)
  {
    EndsWithInternalPortMatches(s);
    if HasPortSuffix(s) {
      var i :| 0 <= i < |s| && PortSuffixAt(s, i);
      var r := s[..i] + InternalPortSuffix;
      assert r[|r| - |InternalPortSuffix|..] == InternalPortSuffix;
    }
  }

  // ---------------------------------------------------------------------------
  // getApiBaseUrl
  // ---------------------------------------------------------------------------

  /**
   * The API base URL. An absent or empty public base is a configuration error.
   * During server-side rendering a trailing `:<port>` becomes `:8001`; in the
   * browser the public base is used as it is.
   */
  function GetApiBaseUrl(publicBase: Option<string>, isServer: bool): (r: Result<string, ConfigError>)
    ensures r.Failure? <==> publicBase.None? || publicBase.value == ""
    ensures r.Failure? ==> r.error == BaseNotConfigured
    ensures r.Success? ==> r.value != ""
    ensures r.Success? && !isServer ==> r.value == publicBase.value
    ensures r.Success? && isServer ==>
      forall i :: PortSuffixAt(publicBase.value, i) ==> r.value == publicBase.value[..i] + InternalPortSuffix
    ensures r.Success? && isServer && !HasPortSuffix(publicBase.value) ==> r.value == publicBase.value
  {
    if publicBase.None? || publicBase.value == "" then
      Failure(BaseNotConfigured)
    else if isServer then
      Success(ReplacePort(publicBase.value))
    else
      Success(publicBase.value)
  }

  /** Whatever branch produced it, the server-side base is a fixed point of the rewrite. */
  lemma ServerBaseIsStable(publicBase: Option<string>)
    requires GetApiBaseUrl(publicBase, true).Success?
    ensures ReplacePort(GetApiBaseUrl(publicBase, true).value) == GetApiBaseUrl(publicBase, true).value
  {
    ReplacePortIdempotent(publicBase.value);
  }

  // ---------------------------------------------------------------------------
  // apiUrl and wsUrl
  // ---------------------------------------------------------------------------

  /** `path.startsWith("/") ? path : "/" + path`: the path gets exactly one leading `/` if it has none. */
  function NormalizePath(path: string): (r: string)
    ensures StartsWith(r, "/")
    ensures EndsWith(r, path)
    ensures |r| <= |path| + 1
    ensures StartsWith(path, "/") ==> r == path
  {
    if StartsWith(path, "/") then path else "/" + path
  }

  /** `base.endsWith("/") ? base.slice(0, -1) : base`: at most one trailing `/` is dropped. */
  function TrimTrailingSlash(base: string): (r: string)
    ensures StartsWith(base, r)
    ensures |base| - 1 <= |r|
    ensures r == base <==> !EndsWith(base, "/")
  {
    if EndsWith(base, "/") then base[..|base| - 1] else base
  }

  /** Dropping a trailing `/` keeps every prefix of the base that does not itself end with `/`. */
  lemma TrimTrailingSlashKeepsPrefix(base: string, prefix: string)
    requires StartsWith(base, prefix)
    requires !EndsWith(prefix, "/")
    ensures StartsWith(TrimTrailingSlash(base), prefix)
  {
    assert |prefix| == |base| ==> prefix == base;
  }

  /** A path that already has its leading `/` is normalised to itself. */
  lemma NormalizePathIdempotent(path: string)
    ensures NormalizePath(NormalizePath(path)) == NormalizePath(path)
  {
  }

  /** Without a leading `/`, normalising prepends exactly one. */
  lemma NormalizePathPrepends(path: string)
    requires !StartsWith(path, "/")
    ensures NormalizePath(path) == "/" + path
  {
  }

  /** Normalising never creates a leading `//`, and keeps one the path already had. */
  lemma NormalizePathDoubleSlash(path: string)
    ensures StartsWith(NormalizePath(path), "//") <==> StartsWith(path, "//")
  {
    if !StartsWith(path, "/") {
      assert |path| >= 1 ==> path[..1] == [path[0]];
      assert |path| >= 1 ==> ("/" + path)[..2] == ['/', path[0]];
    }
  }

  /** The full API URL for `path` on `base`. */
  function ApiUrl(base: string, path: string): (r: string)
    ensures EndsWith(r, NormalizePath(path))
    ensures EndsWith(r, path)
    ensures StartsWith(r, TrimTrailingSlash(base))
    ensures |r| == |TrimTrailingSlash(base)| + |NormalizePath(path)|
  {
    var normalizedPath := NormalizePath(path);
    var trimmedBase := TrimTrailingSlash(base);
    assert (trimmedBase + normalizedPath)[|trimmedBase|..] == normalizedPath;
    trimmedBase + normalizedPath
  }

  /**
   * The URL is the base, less at most one trailing `/`, followed by the path
   * with exactly one leading `/`.
   */
  lemma ApiUrlShape(base: string, path: string)
    ensures EndsWith(base, "/") ==> StartsWith(ApiUrl(base, path), base[..|base| - 1])
    ensures !EndsWith(base, "/") ==> StartsWith(ApiUrl(base, path), base)
    ensures StartsWith(path, "/") ==> EndsWith(ApiUrl(base, path), path) && |ApiUrl(base, path)| == |TrimTrailingSlash(base)| + |path|
    ensures !StartsWith(path, "/") ==> EndsWith(ApiUrl(base, path), "/" + path)
  {
    if !StartsWith(path, "/") {
      NormalizePathPrepends(path);
    }
  }

  /** Normalising the path before the call makes no difference. */
  lemma ApiUrlNormalizedPath(base: string, path: string)
    ensures ApiUrl(base, NormalizePath(path)) == ApiUrl(base, path)
  {
    NormalizePathIdempotent(path);
  }

  /** One trailing `/` on a base that has no trailing `/` of its own makes no difference. */
  lemma ApiUrlTrailingSlashIgnored(base: string, path: string)
    requires !EndsWith(base, "/")
    ensures ApiUrl(base + "/", path) == ApiUrl(base, path)
  {
    var b := base + "/";
    assert EndsWith(b, "/") by {
      assert b[|b| - 1..] == "/";
    }
    assert b[..|b| - 1] == base;
  }

  /**
   * Where base and path are joined the URL has a `/`. Unless the base ended in
   * two or more slashes, the character before it is not a `/`; unless the path
   * starts with two or more slashes, the character after it is not one either.
   */
  lemma ApiUrlSingleSlashAtJoin(base: string, path: string)
    requires !EndsWith(base, "//")
    ensures var k := |TrimTrailingSlash(base)|;
      k < |ApiUrl(base, path)| && ApiUrl(base, path)[k] == '/' && (k > 0 ==> ApiUrl(base, path)[k - 1] != '/')
    ensures var k := |TrimTrailingSlash(base)|;
      !StartsWith(path, "//") && k + 1 < |ApiUrl(base, path)| ==> ApiUrl(base, path)[k + 1] != '/'
  {
    var t := TrimTrailingSlash(base);
    var k := |t|;
    var n := NormalizePath(path);
    var r := ApiUrl(base, path);
    assert r == t + n;
    assert r[k] == n[0];
    assert k + 1 < |r| ==> r[k + 1] == n[1] && n[..2] == [n[0], n[1]];
    NormalizePathDoubleSlash(path);
    if t == base {
      assert k > 0 ==> base[k - 1..] == [base[k - 1]];
    } else {
      assert |base| >= 2 ==> base[|base| - 2..] == [base[|base| - 2], base[|base| - 1]];
    }
  }

  /**
   * A path that already starts with `//` is kept as it is, so the URL has two
   * slashes at the join even though the base has no trailing `/`.
   */
  lemma ExampleDoubleSlashPath()
    ensures ApiUrl("http://h", "//x") == "http://h" + "//x"
  {
    var base, path := "http://h", "//x";
    assert NormalizePath(path) == path;
    assert TrimTrailingSlash(base) == base by {
      assert base[|base| - 1..] == "h";
    }
  }

  /**
   * `base.replace(/^http:/, "ws:").replace(/^https:/, "wss:")`: the two
   * anchored replacements, applied in the order of `wsUrl` (web/lib/api.ts:65).
   */
  function WebSocketBase(base: string): (r: string)
    ensures StartsWith(base, "http:") ==> r == "ws:" + base[5..]
    ensures StartsWith(base, "https:") ==> r == "wss:" + base[6..]
    ensures !StartsWith(base, "http:") && !StartsWith(base, "https:") ==> r == base
  {
    var afterHttp := if StartsWith(base, "http:") then "ws:" + base[5..] else base;
    assert StartsWith(base, "http:") ==> afterHttp[0] == 'w';
    assert StartsWith(base, "https:") ==> base[4] == 's' && afterHttp == base;
    if StartsWith(afterHttp, "https:") then "wss:" + afterHttp[6..] else afterHttp
  }

  /** Mapping the scheme twice changes nothing more. */
  lemma WebSocketBaseIdempotent(base: string)
    ensures WebSocketBase(WebSocketBase(base)) == WebSocketBase(base)
  {
    var r := WebSocketBase(base);
    assert StartsWith(base, "http:") || StartsWith(base, "https:") ==> r[0] == 'w';
  }

  /** Dropping the trailing `/` of the mapped base keeps its WebSocket scheme. */
  lemma TrimmedWebSocketBaseScheme(base: string)
    ensures StartsWith(base, "https:") ==> StartsWith(TrimTrailingSlash(WebSocketBase(base)), "wss:")
    ensures StartsWith(base, "http:") ==> StartsWith(TrimTrailingSlash(WebSocketBase(base)), "ws:")
  {
    var wsBase := WebSocketBase(base);
    if StartsWith(base, "https:") {
      assert StartsWith(wsBase, "wss:");
      TrimTrailingSlashKeepsPrefix(wsBase, "wss:");
    } else if StartsWith(base, "http:") {
      assert StartsWith(wsBase, "ws:");
      TrimTrailingSlashKeepsPrefix(wsBase, "ws:");
    }
  }

  /** The WebSocket URL for `path`: the API URL construction on the scheme-mapped base. */
  function WsUrl(base: string, path: string): (r: string)
    ensures r == ApiUrl(WebSocketBase(base), path)
    ensures EndsWith(r, NormalizePath(path))
    ensures StartsWith(base, "https:") ==> StartsWith(r, "wss:")
    ensures StartsWith(base, "http:") ==> StartsWith(r, "ws:")
  {
    var wsBase := WebSocketBase(base);
    var normalizedPath := NormalizePath(path);
    var normalizedBase := TrimTrailingSlash(wsBase);
    TrimmedWebSocketBaseScheme(base);
    normalizedBase + normalizedPath
  }

  // ---------------------------------------------------------------------------
  // The examples in the documentation comments of `apiUrl` and `wsUrl`,
  // and in the comments of `getApiBaseUrl`
  // ---------------------------------------------------------------------------

  /** Server-side rendering maps the published port 8681 to the internal port 8001. */
  lemma ExampleServerBase()
    ensures GetApiBaseUrl(Some("http://localhost:8681"), true) == Success("http://localhost:8001")
    ensures GetApiBaseUrl(Some("http://localhost:8681"), false) == Success("http://localhost:8681")
  {
    var s := "http://localhost:8681";
    assert s[17..] == "8681";
    assert PortSuffixAt(s, 16);
    assert s[..16] + InternalPortSuffix == "http://localhost:8001";
  }

  /** A trailing `/` after the port stops the pattern from matching, so the port is kept. */
  lemma ExampleServerBaseTrailingSlash()
    ensures GetApiBaseUrl(Some("http://localhost:8681/"), true) == Success("http://localhost:8681/")
  {
    var s := "http://localhost:8681/";
    forall i | 0 <= i < |s|
      ensures !PortSuffixAt(s, i)
    {
      if i + 1 < |s| {
        assert s[i + 1..][|s| - i - 2] == '/';
      }
    }
  }

  /** The example in the documentation comment of `apiUrl`. */
  lemma ExampleApiUrl()
    ensures ApiUrl("http://localhost:8000", "/api/v1/knowledge/list") == "http://localhost:8000" + "/api/v1/knowledge/list"
  {
    var base, path := "http://localhost:8000", "/api/v1/knowledge/list";
    assert NormalizePath(path) == path;
    assert TrimTrailingSlash(base) == base by {
      assert base[|base| - 1..] == "0";
    }
  }

  /** The example in the documentation comment of `wsUrl`, with the backend port 8001. */
  lemma ExampleWsUrl()
    ensures WsUrl("http://localhost:8001", "/api/v1/solve") == "ws://localhost:8001" + "/api/v1/solve"
  {
    var base, path := "http://localhost:8001", "/api/v1/solve";
    assert WebSocketBase(base) == "ws://localhost:8001" by {
      assert StartsWith(base, "http:");
      assert base[5..] == "//localhost:8001";
    }
    assert NormalizePath(path) == path;
    assert TrimTrailingSlash("ws://localhost:8001") == "ws://localhost:8001" by {
      assert "ws://localhost:8001"[18..] == "1";
    }
  }

  /** An `https:` base with a trailing `/` and a path without a leading `/`. */
  lemma ExampleSecureWsUrl()
    ensures WsUrl("https://example.org/", "ws") == "wss://example.org/ws"
  {
    var base, path := "https://example.org/", "ws";
    assert WebSocketBase(base) == "wss://example.org/" by {
      assert StartsWith(base, "https:");
      assert base[6..] == "//example.org/";
    }
    assert NormalizePath(path) == "/ws" by {
      assert path[0] == 'w';
    }
    assert TrimTrailingSlash("wss://example.org/") == "wss://example.org" by {
      assert "wss://example.org/"[17..] == "/";
    }
  }
}
