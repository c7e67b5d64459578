/**
 * The TruSoundCloud page as a state machine. Each handler of the page, and
 * each completion of a request it starts, is a pure transition on the page
 * state together with the browser storage; requests the handler starts are
 * returned as effects, and their completions arrive later as separate events.
 */
module TruSoundCloudPage {
  import opened Js
  import opened Decimal
  import opened Storage
  import opened TruSoundApi
  import TrackRow

  datatype Artist = Artist(id: nat, name: string)

  datatype Track = Track(id: nat, title: string, durationSeconds: Js<nat>)

  /**
   * The duration column of a track's row, `formatDuration(track.duration_seconds)`:
   * the dash exactly when the track has no duration, otherwise a text that
   * reads back as the track's duration.
   */
  function DurationColumn(t: Track): (s: string)
    ensures s == TrackRow.Dash <==> t.durationSeconds.Nullish()
    ensures t.durationSeconds.Val? ==> TrackRow.ParseDuration(s) == Some(t.durationSeconds.v)
  {
    if t.durationSeconds.Val? then
      TrackRow.FormatDurationRoundTrip(t.durationSeconds.v);
      TrackRow.FormatDuration(t.durationSeconds)
    else
      TrackRow.FormatDuration(t.durationSeconds)
  }

  /** The `useState` slots of the page. */
  datatype Page = Page(
    session: Js<Session>,
    artists: seq<Artist>,
    selectedArtist: Option<Artist>,
    tracks: seq<Track>,
    currentTrack: Option<Track>,
    audioUrl: Option<string>,
    loadingArtists: bool,
    loadingTracks: bool,
    errorMessage: Option<string>,
    loginError: Option<string>)

  datatype World = World(page: Page, store: Store)

  /** Requests a transition starts; their completions are the `...Arrived` / `LoginReplied` events. */
  datatype Effect = FetchArtists | FetchArtistTracks(artistId: nat) | PostLogin(email: string, password: string)

  datatype Step = Step(world: World, effects: seq<Effect>)

  /** What the page reads from its module scope: `API_BASE` and `encodeURIComponent`. */
  datatype Env = Env(apiBase: string, encode: string -> string)

  const ArtistsError := "No se pudieron cargar los artistas."
  const TracksError := "No se pudieron cargar las canciones de este artista."
  const LoginFallback := "Credenciales incorrectas"
  const SubtitlePrompt := "Selecciona un artista para empezar."
  const SubtitleSeparator := " \U{B7} "
  const SubtitleSuffix := " canciones disponibles"

  /** The first render: the session is whatever storage holds, everything else is empty, idle and error-free. */
  function Mount(store: Store): (w: World)
    ensures w.page.session == GetSession(store) && w.store == store
    ensures w.page.currentTrack.None? && w.page.audioUrl.None?
    ensures w.page.artists == [] && w.page.tracks == [] && w.page.selectedArtist.None?
    ensures !w.page.loadingArtists && !w.page.loadingTracks
    ensures w.page.errorMessage.None? && w.page.loginError.None?
  {
    World(Page(GetSession(store), [], None, [], None, None, false, false, None, None), store)
  }

  /**
   * The artist-loading effect, run whenever `session?.token` changes: without
   * a token nothing happens; with one, loading starts, the error clears and
   * the artist list is requested.
   */
  function LoadArtists(w: World): (r: Step)
    ensures FetchArtists in r.effects <==> HasToken(w.page.session)
    ensures !HasToken(w.page.session) ==> r == Step(w, [])
    ensures HasToken(w.page.session) ==>
              && r.world == World(w.page.(loadingArtists := true, errorMessage := None), w.store)
              && r.effects == [FetchArtists]
  {
    if !HasToken(w.page.session) then Step(w, [])
    else Step(World(w.page.(loadingArtists := true, errorMessage := None), w.store), [FetchArtists])
  }

  /**
   * `handleSelectArtist` up to its await: the artist becomes the selection,
   * the track list empties and `loadingTracks` is raised before the tracks of
   * that artist are requested.
   */
  function SelectArtist(w: World, artist: Artist): (r: Step)
    ensures r.world.page.selectedArtist == Some(artist)
    ensures r.world.page.tracks == [] && r.world.page.loadingTracks
    ensures r.effects == [FetchArtistTracks(artist.id)]
    ensures r.world.store == w.store
    ensures r.world.page == w.page.(selectedArtist := Some(artist), tracks := [], loadingTracks := true)
  {
    Step(World(w.page.(selectedArtist := Some(artist), tracks := [], loadingTracks := true), w.store),
         [FetchArtistTracks(artist.id)])
  }

  /**
   * Completion of `fetchArtists`: the list is stored; a non-empty one selects
   * its first artist (starting that artist's track request), an empty one
   * clears selection and tracks. A failure keeps the list and sets the error.
   * Loading ends in every case.
   */
  function ArtistsArrived(w: World, reply: Reply<seq<Artist>>): (r: Step)
    ensures !r.world.page.loadingArtists && r.world.store == w.store
    ensures reply.Ok? ==> r.world.page.artists == reply.value
    ensures reply.Ok? && |reply.value| > 0 ==>
              && r.world.page == w.page.(artists := reply.value, selectedArtist := Some(reply.value[0]),
                                         tracks := [], loadingTracks := true, loadingArtists := false)
              && r.effects == [FetchArtistTracks(reply.value[0].id)]
    ensures reply.Ok? && |reply.value| == 0 ==>
              && r.world.page == w.page.(artists := reply.value, selectedArtist := None, tracks := [],
                                         loadingArtists := false)
              && r.effects == []
    ensures reply.Failed? ==>
              && r.world.page == w.page.(errorMessage := Some(ArtistsError), loadingArtists := false)
              && r.effects == []
  {
    match reply
    case Ok(data) =>
      var listed := World(w.page.(artists := data), w.store);
      var s := if |data| > 0 then SelectArtist(listed, data[0])
               else Step(World(listed.page.(selectedArtist := None, tracks := []), w.store), []);
      Step(World(s.world.page.(loadingArtists := false), w.store), s.effects)
    case Failed =>
      Step(World(w.page.(errorMessage := Some(ArtistsError), loadingArtists := false), w.store), [])
  }

  /**
   * Completion of `fetchArtistTracks`: the tracks arrive, or the error is set
   * and the (already emptied) list stays; `loadingTracks` ends false either
   * way. There is no check that the reply belongs to the current selection.
   */
  function TracksArrived(w: World, reply: Reply<seq<Track>>): (r: Step)
    ensures !r.world.page.loadingTracks && r.effects == [] && r.world.store == w.store
    ensures reply.Ok? ==> r.world.page == w.page.(tracks := reply.value, loadingTracks := false)
    ensures reply.Failed? ==>
              r.world.page == w.page.(errorMessage := Some(TracksError), loadingTracks := false)
  {
    match reply
    case Ok(data) => Step(World(w.page.(tracks := data, loadingTracks := false), w.store), [])
    case Failed => Step(World(w.page.(errorMessage := Some(TracksError), loadingTracks := false), w.store), [])
  }

  /** `handlePlayTrack`: the track and its stream URL, built under the current storage, are set together. */
  function PlayTrack(env: Env, w: World, track: Track): (r: Step)
    ensures r.world.page.currentTrack == Some(track)
    ensures r.world.page.audioUrl == Some(BuildTrackStreamUrl(env.apiBase, w.store, track.id, env.encode))
    ensures r.world.page == w.page.(currentTrack := r.world.page.currentTrack, audioUrl := r.world.page.audioUrl)
    ensures r.world.store == w.store && r.effects == []
  {
    var url := BuildTrackStreamUrl(env.apiBase, w.store, track.id, env.encode);
    Step(World(w.page.(currentTrack := Some(track), audioUrl := Some(url)), w.store), [])
  }

  /** `handleLogin` up to its await: the previous login error is cleared and the credentials are posted. */
  function StartLogin(w: World, email: string, password: string): (r: Step)
    ensures r.world.page == w.page.(loginError := None) && r.world.store == w.store
    ensures r.effects == [PostLogin(email, password)]
  {
    Step(World(w.page.(loginError := None), w.store), [PostLogin(email, password)])
  }

  /** The message `handleLogin` shows: the server's, or the fixed fallback when it sent none. */
  function LoginMessage(serverMessage: Js<string>): (m: string)
    ensures m != ""
    ensures TruthyString(serverMessage) ==> m == serverMessage.v
    ensures !TruthyString(serverMessage) ==> m == LoginFallback
  {
    OrElse(serverMessage, LoginFallback)
  }

  /**
   * Starting a login and having it rejected shows a non-empty message, the
   * server's when it sent one, and touches neither storage nor the session.
   */
  lemma RejectedLoginShowsMessage(w: World, email: string, password: string, msg: Js<string>)
    ensures var r := LoginReplied(StartLogin(w, email, password).world, LoginRejected(msg)).world;
            && r.store == w.store
            && r.page.session == w.page.session
            && r.page.loginError.Some? && r.page.loginError.value != ""
            && (TruthyString(msg) ==> r.page.loginError.value == msg.v)
            && (!TruthyString(msg) ==> r.page.loginError.value == LoginFallback)
  {
  }

  /**
   * Completion of the login request: on success the response is persisted and
   * becomes the page session; on failure storage and session stay and the
   * login error is shown.
   */
  function LoginReplied(w: World, reply: LoginReply): (r: Step)
    ensures r.effects == []
    ensures reply.LoginOk? ==>
              && r.world.page == w.page.(session := Val(reply.data))
              && GetSession(r.world.store) == Val(reply.data)
              && forall k :: k != SessionKey ==> GetItem(r.world.store, k) == GetItem(w.store, k)
    ensures reply.LoginRejected? ==>
              && r.world.store == w.store
              && r.world.page == w.page.(loginError := Some(LoginMessage(reply.message)))
  {
    var store := LoginTruSound(w.store, reply);
    match reply
    case LoginOk(data) => Step(World(w.page.(session := Val(data)), store), [])
    case LoginRejected(msg) => Step(World(w.page.(loginError := Some(LoginMessage(msg))), store), [])
  }

  /**
   * `handleLogout`: storage loses the session and the page loses session,
   * artists, tracks, player URL and current track; the selected artist, the
   * error message, the loading flags and the login error are left as they were.
   */
  function Logout(w: World): (r: Step)
    ensures GetSession(r.world.store) == Null && r.world.page.session == Null
    ensures forall k :: k != SessionKey ==> GetItem(r.world.store, k) == GetItem(w.store, k)
    ensures r.world.page.artists == [] && r.world.page.tracks == []
    ensures r.world.page.audioUrl.None? && r.world.page.currentTrack.None?
    ensures r.world.page.selectedArtist == w.page.selectedArtist
    ensures r.world.page.errorMessage == w.page.errorMessage
    ensures r.world.page.loadingArtists == w.page.loadingArtists
    ensures r.world.page.loadingTracks == w.page.loadingTracks
    ensures r.world.page.loginError == w.page.loginError
    ensures r.effects == []
  {
    var page := w.page.(session := Null, artists := [], tracks := [], audioUrl := None, currentTrack := None);
    Step(World(page, LogoutTruSound(w.store)), [])
  }

  /**
   * The hero subtitle: the prompt without a selection; otherwise the artist's
   * name, the separator, a numeral that reads back as the track count, and
   * the suffix.
   */
  function Subtitle(p: Page): (s: string)
    ensures p.selectedArtist.None? ==> s == SubtitlePrompt
    ensures p.selectedArtist.Some? ==>
              var head := p.selectedArtist.value.name + SubtitleSeparator;
              && |head| + |SubtitleSuffix| < |s|
              && s[..|head|] == head
              && s[|s| - |SubtitleSuffix|..] == SubtitleSuffix
              && IsCanonical(s[|head|..|s| - |SubtitleSuffix|])
              && Value(s[|head|..|s| - |SubtitleSuffix|]) == |p.tracks|
  {
    match p.selectedArtist
    case None => SubtitlePrompt
    case Some(a) =>
      var head := a.name + SubtitleSeparator;
      var count := NatToString(|p.tracks|);
      var s := head + count + SubtitleSuffix;
      NatToStringIsCanonical(|p.tracks|);
      ValueOfNatToString(|p.tracks|);
      assert s[..|head|] == head;
      assert s[|s| - |SubtitleSuffix|..] == SubtitleSuffix;
      assert s[|head|..|s| - |SubtitleSuffix|] == count;
      s
  }

  /** The user-facing events of the page, including request completions. */
  datatype Event =
    | SessionTokenChanged
    | ArtistsReply(artists: Reply<seq<Artist>>)
    | ArtistClicked(artist: Artist)
    | TracksReply(tracks: Reply<seq<Track>>)
    | PlayClicked(track: Track)
    | LoginSubmitted(email: string, password: string)
    | LoginAnswered(login: LoginReply)
    | LogoutClicked

  function Apply(env: Env, w: World, e: Event): Step {
    match e
    case SessionTokenChanged => LoadArtists(w)
    case ArtistsReply(reply) => ArtistsArrived(w, reply)
    case ArtistClicked(a) => SelectArtist(w, a)
    case TracksReply(reply) => TracksArrived(w, reply)
    case PlayClicked(t) => PlayTrack(env, w, t)
    case LoginSubmitted(email, password) => StartLogin(w, email, password)
    case LoginAnswered(reply) => LoginReplied(w, reply)
    case LogoutClicked => Logout(w)
  }

  /** The state after a sequence of events, one at a time. */
  function Run(env: Env, w: World, events: seq<Event>): World
    decreases |events|
  {
    if |events| == 0 then w else Run(env, Apply(env, w, events[0]).world, events[1..])
  }

  /**
   * The footer player is consistent: a current track exists exactly when an
   * audio URL does, and that URL is the stream of the current track.
   */
  predicate PlayerBound(apiBase: string, p: Page) {
    && (p.currentTrack.Some? <==> p.audioUrl.Some?)
    && (p.audioUrl.Some? ==>
          var parsed := ParseTrackStreamUrl(apiBase, p.audioUrl.value);
          parsed.Some? && parsed.value.0 == p.currentTrack.value.id)
  }

  /** Every event keeps the player consistent. */
  lemma ApplyKeepsPlayerBound(env: Env, w: World, e: Event)
    requires PlayerBound(env.apiBase, w.page)
    ensures PlayerBound(env.apiBase, Apply(env, w, e).world.page)
  {
    if e.PlayClicked? {
      StreamUrlRoundTrip(env.apiBase, w.store, e.track.id, env.encode);
    }
  }

  /** From the first render, any sequence of events leaves the player consistent. */
  lemma {:induction false} RunKeepsPlayerBound(env: Env, w: World, events: seq<Event>)
    requires PlayerBound(env.apiBase, w.page)
    ensures PlayerBound(env.apiBase, Run(env, w, events).page)
    decreases |events|
  {
    if |events| > 0 {
      ApplyKeepsPlayerBound(env, w, events[0]);
      RunKeepsPlayerBound(env, Apply(env, w, events[0]).world, events[1..]);
    }
  }

  lemma MountedPlayerIsBound(env: Env, store: Store, events: seq<Event>)
    ensures PlayerBound(env.apiBase, Run(env, Mount(store), events).page)
  {
    RunKeepsPlayerBound(env, Mount(store), events);
  }

  /** A failed track request after a selection leaves the list empty, shows the error and ends loading. */
  lemma SelectThenTracksFail(w: World, artist: Artist)
    ensures var s := TracksArrived(SelectArtist(w, artist).world, Failed).world.page;
            && s.selectedArtist == Some(artist)
            && s.tracks == []
            && s.errorMessage == Some(TracksError)
            && !s.loadingTracks
  {
  }

  /** A successful track request after a selection shows exactly the tracks received. */
  lemma SelectThenTracksArrive(w: World, artist: Artist, tracks: seq<Track>)
    ensures var s := TracksArrived(SelectArtist(w, artist).world, Ok(tracks)).world.page;
            s.selectedArtist == Some(artist) && s.tracks == tracks && !s.loadingTracks
  {
  }

  /**
   * Responses are applied in arrival order, not request order: when the
   * tracks of an earlier selection arrive after a later click, they are shown
   * under the later selection.
   */
  lemma LateTracksAreShown(w: World, a: Artist, b: Artist, tracksOfA: seq<Track>)
    ensures var s := TracksArrived(SelectArtist(SelectArtist(w, a).world, b).world, Ok(tracksOfA)).world.page;
            s.selectedArtist == Some(b) && s.tracks == tracksOfA
  {
  }

  /** After logout, or on a first render with nothing stored, no artist request is made. */
  lemma NoArtistLoadWithoutToken(w: World)
    ensures LoadArtists(Logout(w).world).effects == []
    ensures LoadArtists(Mount(map[])).effects == []
  {
  }

  /** A login whose response carries a token makes the page request the artist list. */
  lemma LoginThenArtistsLoad(w: World, data: Session)
    requires TruthyString(data.token)
    ensures LoadArtists(LoginReplied(w, LoginOk(data)).world).effects == [FetchArtists]
  {
  }

  /** The subtitle names the selected artist and its track count; the count can be read back. */
  lemma SubtitleCount(p: Page, q: Page)
    requires p.selectedArtist.Some? && q.selectedArtist.Some?
    requires p.selectedArtist.value.name == q.selectedArtist.value.name
    ensures Subtitle(p) == Subtitle(q) <==> |p.tracks| == |q.tracks|
  {
    var prefix := p.selectedArtist.value.name + SubtitleSeparator;
    var np := NatToString(|p.tracks|);
    var nq := NatToString(|q.tracks|);
    if Subtitle(p) == Subtitle(q) {
      assert Subtitle(p) == prefix + np + SubtitleSuffix;
      assert Subtitle(q) == prefix + nq + SubtitleSuffix;
      assert |np| == |nq|;
      assert np == Subtitle(p)[|prefix|..|prefix| + |np|];
      assert nq == Subtitle(q)[|prefix|..|prefix| + |nq|];
      NatToStringInjective(|p.tracks|, |q.tracks|);
    }
  }
}
