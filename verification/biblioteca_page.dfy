/**
 * The Biblioteca catalog page as a state machine: catalog loading guarded by
 * the signed-in user's token, blob playback into a single player, and
 * closing the player. Request completions are separate events carrying
 * whether the component is still mounted and whether the request was aborted.
 */
module BibliotecaPage {
  import opened Js
  import opened Storage
  import opened BibliotecaApi

  /** The player slot: the movie shown and its object URL. */
  datatype Player = Player(movie: Option<Movie>, url: Option<string>)

  datatype Page = Page(
    peliculas: seq<Movie>,
    loading: bool,
    error: Option<string>,
    streamingMovieId: Option<nat>,
    player: Player,
    streamError: Option<string>)

  datatype Step = Step(page: Page, effects: seq<Effect>)

  const LoginRequired := "Debes iniciar sesi\U{F3}n para acceder a la biblioteca."
  const CatalogError := "No se pudieron cargar las pel\U{ED}culas. Intenta nuevamente."
  const SessionExpired := "Debes iniciar sesi\U{F3}n nuevamente."
  const PlaybackError := "No se pudo iniciar la reproducci\U{F3}n. Intenta de nuevo."

  const Initial := Page([], true, None, None, Player(None, None), None)

  /**
   * `fetchPeliculas` up to its await. Without a token in the signed-in user
   * record, loading ends with the login-required error and nothing is
   * requested; otherwise loading starts, the error clears and the catalog is
   * requested.
   */
  function FetchStart(p: Page, usuario: Js<Session>): (r: Step)
    ensures FetchPeliculas in r.effects <==> HasToken(usuario)
    ensures !HasToken(usuario) ==>
              r.page == p.(loading := false, error := Some(LoginRequired)) && r.effects == []
    ensures HasToken(usuario) ==>
              r.page == p.(loading := true, error := None) && r.effects == [FetchPeliculas]
  {
    if !HasToken(usuario) then Step(p.(loading := false, error := Some(LoginRequired)), [])
    else Step(p.(loading := true, error := None), [FetchPeliculas])
  }

  /**
   * Completion of the catalog request. Nothing changes once unmounted. While
   * mounted, loading always ends; a reply replaces the list, a failure sets the
   * error unless the request was aborted, and the list is never cleared.
   */
  function FetchDone(p: Page, reply: Reply<seq<Movie>>, mounted: bool, aborted: bool): (r: Page)
    ensures !mounted ==> r == p
    ensures mounted ==> !r.loading
    ensures mounted && reply.Ok? ==> r == p.(peliculas := reply.value, loading := false)
    ensures mounted && reply.Failed? && !aborted ==> r == p.(error := Some(CatalogError), loading := false)
    ensures reply.Failed? && aborted ==> r.error == p.error && r.peliculas == p.peliculas
    ensures r.player == p.player && r.streamError == p.streamError && r.streamingMovieId == p.streamingMovieId
  {
    var applied :=
      match reply
      case Ok(data) => if mounted then p.(peliculas := data) else p
      case Failed => if aborted then p else if mounted then p.(error := Some(CatalogError)) else p;
    if mounted then applied.(loading := false) else applied
  }

  /**
   * `handlePlayMovie` up to its await. Without a token only the stream error
   * is set; the player and the in-flight marker are untouched and nothing is
   * requested. Otherwise the movie is marked as streaming and its blob requested.
   */
  function PlayStart(p: Page, usuario: Js<Session>, movie: Movie): (r: Step)
    ensures !HasToken(usuario) ==>
              r.page == p.(streamError := Some(SessionExpired)) && r.effects == []
    ensures HasToken(usuario) ==>
              && r.page == p.(streamingMovieId := Some(movie.id), streamError := None)
              && r.effects == [StreamPelicula(movie.id)]
    ensures r.page.player == p.player
  {
    if !HasToken(usuario) then Step(p.(streamError := Some(SessionExpired)), [])
    else Step(p.(streamingMovieId := Some(movie.id), streamError := None), [StreamPelicula(movie.id)])
  }

  /**
   * Completion of the blob request for `movie`, `objectUrl` standing for the
   * fresh `URL.createObjectURL(blob)`. On success the previous URL is revoked
   * and the player shows the movie at the new URL; on failure the player stays
   * and the stream error is set. The in-flight marker clears either way.
   */
  function PlayDone(p: Page, movie: Movie, objectUrl: Reply<string>): (r: Step)
    ensures r.page.streamingMovieId.None?
    ensures objectUrl.Ok? ==>
              && r.page.player == Player(Some(movie), Some(objectUrl.value))
              && r.effects == Revoke(p.player.url)
              && r.page.streamError == p.streamError
    ensures objectUrl.Failed? ==>
              && r.page.player == p.player
              && r.page.streamError == Some(PlaybackError)
              && r.effects == []
    ensures r.page.peliculas == p.peliculas && r.page.loading == p.loading && r.page.error == p.error
  {
    match objectUrl
    case Ok(url) =>
      Step(p.(player := Player(Some(movie), Some(url)), streamingMovieId := None), Revoke(p.player.url))
    case Failed =>
      Step(p.(streamError := Some(PlaybackError), streamingMovieId := None), [])
  }

  /** `closePlayer`: the held URL is revoked and the player emptied. */
  function ClosePlayer(p: Page): (r: Step)
    ensures r.page.player == Player(None, None)
    ensures r.effects == Revoke(p.player.url)
    ensures r.page == p.(player := Player(None, None))
  {
    Step(p.(player := Player(None, None)), Revoke(p.player.url))
  }

  /** The "no movies yet" notice is shown exactly when nothing is loading, there is no error and the list is empty. */
  predicate EmptyState(p: Page)
    ensures EmptyState(p) ==> !p.loading && p.error.None?
    ensures EmptyState(p) ==> p.peliculas == []
  {
    !p.loading && p.error.None? && |p.peliculas| == 0
  }

  /** The player shows a movie exactly when it holds a URL. */
  predicate PlayerConsistent(p: Page) {
    p.player.movie.Some? <==> p.player.url.Some?
  }

  datatype Event =
    | Mounted(usuario: Js<Session>)
    | CatalogReply(reply: Reply<seq<Movie>>, mounted: bool, aborted: bool)
    | PlayClicked(user: Js<Session>, movie: Movie)
    | BlobReply(forMovie: Movie, objectUrl: Reply<string>)
    | CloseClicked

  function Apply(p: Page, e: Event): Step {
    match e
    case Mounted(u) => FetchStart(p, u)
    case CatalogReply(reply, mounted, aborted) => Step(FetchDone(p, reply, mounted, aborted), [])
    case PlayClicked(u, m) => PlayStart(p, u, m)
    case BlobReply(m, url) => PlayDone(p, m, url)
    case CloseClicked => ClosePlayer(p)
  }

  lemma ApplyKeepsPlayerConsistent(p: Page, e: Event)
    requires PlayerConsistent(p)
    ensures PlayerConsistent(Apply(p, e).page)
  {
  }

  /** Without a token the page ends in the login-required error, not loading and not empty. */
  lemma NoTokenShowsLoginRequired(usuario: Js<Session>)
    requires !HasToken(usuario)
    ensures var s := FetchStart(Initial, usuario);
            && s.effects == []
            && !s.page.loading
            && s.page.error == Some(LoginRequired)
            && !EmptyState(s.page)
  {
  }

  /** An aborted catalog request leaves no error behind. */
  lemma AbortedFetchSetsNoError(p: Page, usuario: Js<Session>, mounted: bool)
    requires HasToken(usuario)
    ensures FetchDone(FetchStart(p, usuario).page, Failed, mounted, true).error.None?
  {
  }

  /** An empty catalog, once loaded, shows the empty notice; a non-empty one does not. */
  lemma LoadedCatalogEmptyState(p: Page, usuario: Js<Session>, movies: seq<Movie>)
    requires HasToken(usuario)
    ensures EmptyState(FetchDone(FetchStart(p, usuario).page, Ok(movies), true, false)) <==> |movies| == 0
  {
  }

  /** Any play attempt with a token ends with no movie marked as streaming. */
  lemma PlayAttemptEndsNotStreaming(p: Page, usuario: Js<Session>, movie: Movie, objectUrl: Reply<string>)
    requires HasToken(usuario)
    ensures var started := PlayStart(p, usuario, movie);
            && started.page.streamingMovieId == Some(movie.id)
            && PlayDone(started.page, movie, objectUrl).page.streamingMovieId.None?
  {
  }

  /** Two successful plays in a row revoke the first URL when the second is installed. */
  lemma ReplayRevokesPrevious(p: Page, a: Movie, b: Movie, urlA: string, urlB: string)
    ensures var first := PlayDone(p, a, Ok(urlA)).page;
            var second := PlayDone(first, b, Ok(urlB));
            second.effects == [RevokeObjectUrl(urlA)] && second.page.player == Player(Some(b), Some(urlB))
  {
  }
}
