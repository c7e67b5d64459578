/**
 * Base-URL resolution of the Tetris API client: a configured base wins,
 * otherwise one is guessed from the browser location, and request URLs are
 * the base followed by the path.
 */
module TetrisApi {
  import opened Js
  import opened JsText

  const DefaultBaseUrl := "http://localhost:3000"
  const Port := ":3000"

  /** The two fields of `window.location` the guess reads. */
  datatype Location = Location(protocol: string, hostname: string)

  predicate IsLoopback(hostname: string) {
    hostname == "localhost" || hostname == "127.0.0.1"
  }

  predicate EndsWithPort(s: string) {
    |s| >= |Port| && s[|s| - |Port|..] == Port
  }

  /**
   * `guessApiBase` with the browser window as an input (`None` when there is
   * no window). Every guess names port 3000 and none ends with a slash.
   */
  function GuessApiBase(window: Option<Location>): (r: string)
    ensures window.None? ==> r == DefaultBaseUrl
    ensures window.Some? && IsLoopback(window.value.hostname) ==> r == DefaultBaseUrl
    ensures window.Some? && !IsLoopback(window.value.hostname) ==>
              r == window.value.protocol + "//" + window.value.hostname + Port
    ensures EndsWithPort(r) && !EndsWithSlash(r)
  {
    match window
    case None => DefaultBaseUrl
    case Some(loc) =>
      if IsLoopback(loc.hostname) then DefaultBaseUrl
      else
        var r := loc.protocol + "//" + loc.hostname + Port;
        assert r[|r| - |Port|..] == Port;
        r
  }

  /** On a loopback host the guess does not depend on the protocol. */
  lemma LoopbackIgnoresProtocol(p1: string, p2: string, hostname: string)
    requires IsLoopback(hostname)
    ensures GuessApiBase(Some(Location(p1, hostname))) == GuessApiBase(Some(Location(p2, hostname)))
  {
  }

  /**
   * `resolveBaseUrl`: a non-empty `VITE_TETRIS_API_BASE` wins and loses exactly
   * one trailing slash; otherwise the guess is used as it is, its slash
   * stripping being a no-op.
   */
  function ResolveBaseUrl(configured: Js<string>, window: Option<Location>): (r: string)
    ensures TruthyString(configured) ==> r + "/" == configured.v || r == configured.v
    ensures TruthyString(configured) ==> (r == configured.v <==> !EndsWithSlash(configured.v))
    ensures !TruthyString(configured) ==> r == GuessApiBase(window)
  {
    if TruthyString(configured) then StripTrailingSlash(configured.v)
    else StripTrailingSlash(GuessApiBase(window))
  }

  /** The configured value beats any window, whatever it is. */
  lemma ConfiguredBaseWins(configured: string, w1: Option<Location>, w2: Option<Location>)
    requires configured != ""
    ensures ResolveBaseUrl(Val(configured), w1) == ResolveBaseUrl(Val(configured), w2)
  {
  }

  /** Only one slash goes: a configured `".../"` + `"/"` keeps one. */
  lemma OnlyOneSlashRemoved(prefix: string)
    ensures ResolveBaseUrl(Val(prefix + "//"), None) == prefix + "/"
  {
    assert (prefix + "//")[..|prefix| + 1] == prefix + "/";
  }

  /** `withPath`: the base, then the path, with nothing inserted between. */
  function WithPath(base: string, path: string): (r: string)
    ensures |r| == |base| + |path|
    ensures r[..|base|] == base && r[|base|..] == path
  {
    base + path
  }

  function LeaderboardUrl(base: string): string {
    WithPath(base, "/api/leaderboard")
  }

  function ScoreUrl(base: string): string {
    WithPath(base, "/api/score")
  }

  /** Without a window or configuration the leaderboard lives on localhost:3000. */
  lemma DefaultLeaderboardUrl()
    ensures LeaderboardUrl(ResolveBaseUrl(Undefined, None)) == "http://localhost:3000/api/leaderboard"
    ensures ScoreUrl(ResolveBaseUrl(Undefined, None)) == "http://localhost:3000/api/score"
  {
  }
}
