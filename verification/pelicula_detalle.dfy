/**
 * The movie detail page: the movie is found in the catalog by the route id,
 * and is played from a blob into one video URL.
 */
module PeliculaDetalle {
  import opened Js
  import opened Decimal
  import opened BibliotecaApi

  datatype Page = Page(
    pelicula: Option<Movie>,
    loading: bool,
    error: Option<string>,
    videoUrl: Option<string>,
    streaming: bool,
    streamError: Option<string>)

  datatype Step = Step(page: Page, effects: seq<Effect>)

  const NotFound := "Pel\U{ED}cula no encontrada"
  const LoadError := "No pudimos cargar la informaci\U{F3}n."
  const PlayError := "No se pudo reproducir esta pel\U{ED}cula."

  const Initial := Page(None, true, None, None, false, None)

  /**
   * `${p.id} === id`: the route parameter is compared as text with the printed
   * id, so it matches exactly when it is that id written without leading zeros.
   */
  predicate MatchesRoute(m: Movie, routeId: string)
    ensures MatchesRoute(m, routeId) <==> IsCanonical(routeId) && Value(routeId) == m.id
  {
    NatToStringIff(m.id, routeId);
    NatToString(m.id) == routeId
  }

  /** Id 5 matches `"5"`; `"05"` and `""` match nothing. */
  lemma RouteExamples(m: Movie)
    ensures MatchesRoute(Movie(5, m.title, m.filename), "5")
    ensures !MatchesRoute(m, "05") && !MatchesRoute(m, "")
  {
  }

  /** `peliculas.find(...)`: the first movie of the list whose printed id is the route id. */
  function FindByRoute(movies: seq<Movie>, routeId: string): (r: Option<Movie>)
    ensures r.None? <==> forall i :: 0 <= i < |movies| ==> !MatchesRoute(movies[i], routeId)
    ensures r.Some? ==>
              exists i :: 0 <= i < |movies| && movies[i] == r.value && MatchesRoute(movies[i], routeId) &&
                forall j :: 0 <= j < i ==> !MatchesRoute(movies[j], routeId)
    decreases |movies|
  {
    if |movies| == 0 then None
    else if MatchesRoute(movies[0], routeId) then
      assert movies[0] == movies[0] && MatchesRoute(movies[0], routeId);
      Some(movies[0])
    else
      var rest := FindByRoute(movies[1..], routeId);
      if rest.Some? then
        ghost var i :| 0 <= i < |movies[1..]| && movies[1..][i] == rest.value && MatchesRoute(movies[1..][i], routeId) &&
                  forall j :: 0 <= j < i ==> !MatchesRoute(movies[1..][j], routeId);
        assert movies[i + 1] == rest.value;
        assert forall j :: 0 < j < i + 1 ==> movies[j] == movies[1..][j - 1];
        rest
      else
        assert forall i :: 0 < i < |movies| ==> movies[i] == movies[1..][i - 1];
        rest
  }

  /** `fetchData` up to its await: loading starts and the catalog is requested. */
  function FetchStart(p: Page): (r: Step)
    ensures r.page == p.(loading := true) && r.effects == [FetchPeliculas]
  {
    Step(p.(loading := true), [FetchPeliculas])
  }

  /**
   * Completion of the catalog request for `routeId`. Once unmounted nothing
   * changes. While mounted, loading ends; a reply installs the found movie or
   * null, a miss also setting the not-found error; a failure sets the load
   * error unless it was an abort. A hit does not clear an earlier error.
   */
  function FetchDone(p: Page, routeId: string, reply: Reply<seq<Movie>>, mounted: bool, aborted: bool): (r: Page)
    ensures !mounted ==> r == p
    ensures mounted ==> !r.loading
    ensures mounted && reply.Ok? ==> r.pelicula == FindByRoute(reply.value, routeId)
    ensures mounted && reply.Ok? && r.pelicula.None? ==> r.error == Some(NotFound)
    ensures mounted && reply.Ok? && r.pelicula.Some? ==> r.error == p.error
    ensures mounted && reply.Failed? && !aborted ==> r == p.(error := Some(LoadError), loading := false)
    ensures reply.Failed? ==> r.pelicula == p.pelicula
    ensures reply.Failed? && aborted ==> r.error == p.error
    ensures r.videoUrl == p.videoUrl && r.streaming == p.streaming && r.streamError == p.streamError
  {
    var applied :=
      match reply
      case Ok(movies) =>
        var peli := FindByRoute(movies, routeId);
        if !mounted then p
        else if peli.None? then p.(error := Some(NotFound), pelicula := None)
        else p.(pelicula := peli)
      case Failed => if aborted || !mounted then p else p.(error := Some(LoadError));
    if mounted then applied.(loading := false) else applied
  }

  /** `handlePlay` up to its await: with no movie loaded it does nothing at all. */
  function PlayStart(p: Page): (r: Step)
    ensures p.pelicula.None? ==> r == Step(p, [])
    ensures p.pelicula.Some? ==>
              && r.page == p.(streaming := true, streamError := None)
              && r.effects == [StreamPelicula(p.pelicula.value.id)]
  {
    match p.pelicula
    case None => Step(p, [])
    case Some(m) => Step(p.(streaming := true, streamError := None), [StreamPelicula(m.id)])
  }

  /**
   * Completion of the blob request, `objectUrl` standing for the fresh object
   * URL. On success the previous URL is revoked and replaced; on failure the
   * video stays and the error shows. `streaming` ends false either way.
   */
  function PlayDone(p: Page, objectUrl: Reply<string>): (r: Step)
    ensures !r.page.streaming
    ensures objectUrl.Ok? ==>
              && r.page.videoUrl == Some(objectUrl.value)
              && (p.videoUrl.Some? ==> r.effects == [RevokeObjectUrl(p.videoUrl.value)])
              && (p.videoUrl.None? ==> r.effects == [])
              && r.page.streamError == p.streamError
    ensures objectUrl.Failed? ==>
              r.page.videoUrl == p.videoUrl && r.page.streamError == Some(PlayError) && r.effects == []
    ensures r.page.pelicula == p.pelicula && r.page.error == p.error && r.page.loading == p.loading
  {
    match objectUrl
    case Ok(url) =>
      Step(p.(videoUrl := Some(url), streaming := false), Revoke(p.videoUrl))
    case Failed => Step(p.(streamError := Some(PlayError), streaming := false), [])
  }

  /** A catalog without the route's movie ends on the not-found error with no movie. */
  lemma MissingMovieIsNotFound(routeId: string, movies: seq<Movie>)
    requires forall i :: 0 <= i < |movies| ==> !MatchesRoute(movies[i], routeId)
    ensures var s := FetchDone(FetchStart(Initial).page, routeId, Ok(movies), true, false);
            s.pelicula.None? && s.error == Some(NotFound) && !s.loading
  {
  }

  /** A catalog holding the route's movie ends showing it, with no error on a first load. */
  lemma PresentMovieIsShown(routeId: string, movies: seq<Movie>, k: nat)
    requires k < |movies| && MatchesRoute(movies[k], routeId)
    ensures var s := FetchDone(FetchStart(Initial).page, routeId, Ok(movies), true, false);
            s.pelicula.Some? && MatchesRoute(s.pelicula.value, routeId) && s.error.None? && !s.loading
  {
  }

  /** Pressing play, whatever the outcome, ends with `streaming` false. */
  lemma PlayEndsNotStreaming(p: Page, objectUrl: Reply<string>)
    requires p.pelicula.Some?
    ensures PlayStart(p).page.streaming
    ensures !PlayDone(PlayStart(p).page, objectUrl).page.streaming
  {
  }
}
