/**
 * The Biblioteca API module: a client whose interceptor reads the `usuario`
 * record, a bare login call, and the relative stream URL of a movie.
 */
module BibliotecaApi {
  import opened Js
  import opened Decimal
  import opened Storage
  import opened AuthInterceptor

  const ApiBase := "/api"
  const UsuarioKey := "usuario"

  /** A catalog entry; only the fields the pages read. */
  datatype Movie = Movie(id: nat, title: string, filename: string)

  /** What a Biblioteca page asks the outside world to do. */
  datatype Effect =
    | FetchPeliculas
    | StreamPelicula(movieId: nat)
    | RevokeObjectUrl(url: string)

  /** Revoking the object URL a player slot holds, if it holds one. */
  function Revoke(url: Option<string>): (e: seq<Effect>)
    ensures url.Some? ==> e == [RevokeObjectUrl(url.value)]
    ensures url.None? ==> e == []
  {
    if url.Some? then [RevokeObjectUrl(url.value)] else []
  }

  /** The configuration `authClient` sends, after its interceptor. */
  function Intercept(store: Store, config: RequestConfig): (r: RequestConfig)
    ensures HasToken(GetItem(store, UsuarioKey)) ==>
              r.headers == config.headers[AuthorizationHeader := BearerValue(store[UsuarioKey].token.v)]
    ensures !HasToken(GetItem(store, UsuarioKey)) ==> r == config
    ensures r.url == config.url
  {
    Prepare(Authenticated(UsuarioKey), store, config)
  }

  /**
   * No other key is read here, the TruSoundCloud session among them: only
   * `usuario` authorizes Biblioteca calls.
   */
  lemma OnlyUsuarioAuthorizes(store: Store, key: string, other: Session, config: RequestConfig)
    requires key != UsuarioKey && !HasToken(GetItem(store, UsuarioKey))
    ensures Intercept(store[key := other], config) == config
  {
  }

  /**
   * `login` posts with the bare axios export, so no stored token is attached
   * to it; the credentials travel in the body, which is not modelled.
   */
  function LoginRequest(store: Store): (r: RequestConfig)
    ensures r.url == ApiBase + "/login"
    ensures AuthorizationHeader !in r.headers
  {
    Prepare(Bare, store, RequestConfig(ApiBase + "/login", map[]))
  }

  /**
   * Against the authenticated client: the same request through `authClient`
   * would carry the stored token, while `login` goes out as it would from
   * empty storage.
   */
  lemma LoginIgnoresStoredToken(store: Store)
    requires HasToken(GetItem(store, UsuarioKey))
    ensures AuthorizationHeader in Intercept(store, RequestConfig(ApiBase + "/login", map[])).headers
    ensures AuthorizationHeader !in LoginRequest(store).headers
    ensures LoginRequest(store) == LoginRequest(map[])
  {
  }

  /** `buildStreamUrl`: relative to the page's origin, under `/api/biblioteca/`, ending in `/stream`. */
  function BuildStreamUrl(movieId: nat): (url: string)
    ensures |url| > 23 && url[..16] == "/api/biblioteca/" && url[|url| - 7..] == "/stream"
  {
    var url := ApiBase + "/biblioteca/" + NatToString(movieId) + "/stream";
    assert url[..16] == "/api/biblioteca/";
    assert url[|url| - 7..] == "/stream";
    url
  }

  /** Reads the movie id back out of a relative stream URL. */
  function ParseStreamUrl(url: string): Option<nat> {
    var p := ApiBase + "/biblioteca/";
    var q := "/stream";
    if |url| < |p| + |q| || url[..|p|] != p || url[|url| - |q|..] != q then None
    else
      var id := url[|p|..|url| - |q|];
      if IsCanonical(id) then Some(Value(id)) else None
  }

  /** Every movie has its own stream URL, and the URL names the movie. */
  lemma StreamUrlRoundTrip(movieId: nat)
    ensures ParseStreamUrl(BuildStreamUrl(movieId)) == Some(movieId)
  {
    var url := BuildStreamUrl(movieId);
    var id := NatToString(movieId);
    assert url == "/api/biblioteca/" + id + "/stream";
    assert url[..16] == "/api/biblioteca/";
    assert url[|url| - 7..] == "/stream";
    assert url[16..|url| - 7] == id;
    NatToStringIsCanonical(movieId);
    ValueOfNatToString(movieId);
  }

  lemma StreamUrlInjective(a: nat, b: nat)
    ensures BuildStreamUrl(a) == BuildStreamUrl(b) ==> a == b
  {
    StreamUrlRoundTrip(a);
    StreamUrlRoundTrip(b);
  }
}
