# FrontEndTruLu front-end logic, modelled in Dafny

The repository holds three browser front-ends: the **Biblioteca** movie
library (catalog page and detail page that stream a movie into a `<video>`),
the **Tetris** leaderboard and score dialog, and the **TruSoundCloud** music
page (artist list, track list, login, a native `<audio>` player). None of them
has an engine; their logic is small and sequential, and that is what this
project models:

- string and number helpers: `formatDuration` (`m:ss`), the base-URL
  resolution of the Tetris and TruSoundCloud clients, stream-URL builders;
- the axios request interceptors that add `Authorization: Bearer <token>`
  from a record in `localStorage`, and the TruSoundCloud session store
  (login writes, logout deletes, `getTruSoundSession` reads);
- the three pages as state machines: one pure transition per handler, and
  one per completion of a request the handler started. A transition returns
  the new state and the requests (effects) it starts; completions are later,
  separate events;
- the submit guards of the score dialog and the login panel, and the
  leaderboard's top-ten list with ranks, `ANON` fallback and row keys.

Each operation has a partner it is proved against: an inverse (a parser for
every rendered string: durations, numerals, both stream URLs), an invariant
it preserves (the TruSoundCloud player always plays the stream of its current
track, over any sequence of events; the Biblioteca player holds a movie
exactly when it holds a URL), a reader that recovers what it built (the
add-to-playlist body), a contrasting client (the bare `login` call against
`authClient`), a list-wide consequence (distinct ids give distinct row keys),
or a statement about sequences of events (login then request, login then
rejection, select then failed fetch, double submit).

Files: `js.dfy` (JavaScript `undefined`/`null`/value, truthiness,
template interpolation), `decimal.dfy` (integer `toString` and its inverse),
`jstext.dfy` (`trim`, `padStart`, `replace(/\/$/, '')`, first-occurrence search), `storage.dfy`
(`localStorage`), `auth.dfy` (the interceptor), `track_row.dfy`,
`tetris_api.dfy`, `trusound_api.dfy`, `biblioteca_api.dfy`,
`trusound_page.dfy`, `biblioteca_page.dfy`, `pelicula_detalle.dfy`,
`score_modal.dfy`, `login_panel.dfy`, `leaderboard.dfy`.

The code has no playback queue, advance/retreat, drag reordering or
media-session handling. `handlePlayTrack` sets one current track and its URL,
playback is the native `<audio>` element, and track replies are applied in
arrival order (`TruSoundCloudPage.LateTracksAreShown`).

## Model

| member | source | states |
|---|---|---|
| TrackRow.FormatDuration | src/apps/trusound/components/TrackRow.jsx:3-8 | the dash is shown exactly when the duration is undefined or null; a present duration, zero included, never renders as the dash |
| TrackRow.DurationFields | src/apps/trusound/components/TrackRow.jsx:5-7 | the text is a minutes numeral denoting `seconds div 60`, a colon, and exactly two digits denoting `seconds mod 60` (< 60); `60*mins + secs == seconds` |
| TrackRow.SecondsField | src/apps/trusound/components/TrackRow.jsx:6-7 | the zero-padded seconds field is always exactly two digits and reads back as `seconds mod 60` |
| TrackRow.FormatDurationRoundTrip | src/apps/trusound/components/TrackRow.jsx:3-8 | parsing the rendered `m:ss` gives back the original number of seconds, for every natural duration |
| TrackRow.ZeroAndMissing | src/apps/trusound/components/TrackRow.jsx:4-7 | 0 renders `0:00`; undefined and null render the dash; the dash does not parse as a duration |
| TruSoundCloudPage.DurationColumn | src/apps/trusound/components/TrackRow.jsx:29 | a track's duration column is the dash exactly when its `duration_seconds` is missing, and otherwise reads back as that duration |
| Decimal.NatToString | src/apps/trusound/components/TrackRow.jsx:7 | the printed integer (as `toString` prints one up to 2^53) is a non-empty digit string whose first digit is `0` only for zero |
| Decimal.NatToStringIff | src/apps/biblioteca/pages/PeliculaDetalle.jsx:26 | a string is the printed form of `n` exactly when it is canonical (no leading zero) and denotes `n` |
| Decimal.NatToStringInjective | src/apps/trusound/pages/TruSoundCloud.jsx:95 | distinct numbers print differently |
| JsText.PadStart | src/apps/trusound/components/TrackRow.jsx:7 | the result has length `max(|s|, width)`, ends with `s`, and everything before `s` is the fill character |
| JsText.Trim | src/apps/tetris/components/ScoreModal.jsx:28-29 | the result is a contiguous piece of the input with no JavaScript whitespace at either edge, and everything removed on both sides is whitespace |
| JsText.TrimEmptyIff | src/apps/tetris/components/ScoreModal.jsx:28 | a string trims to empty exactly when every character is whitespace (the empty string included) |
| JsText.TrimIdempotent | src/apps/tetris/components/ScoreModal.jsx:29 | trimming an already trimmed name changes nothing |
| JsText.StripTrailingSlash | src/apps/tetris/api/apitetris.js:20-21 | either nothing or exactly one final `/` is removed, the latter exactly when the input ends in `/`; of `//` one slash survives |
| TetrisApi.GuessApiBase | src/apps/tetris/api/apitetris.js:4-16 | no window or a loopback host gives `http://localhost:3000`, any other host `protocol//hostname:3000`; every guess ends in `:3000` and never in `/` |
| TetrisApi.LoopbackIgnoresProtocol | src/apps/tetris/api/apitetris.js:11-13 | on `localhost` or `127.0.0.1` the guess does not depend on the protocol |
| TetrisApi.ResolveBaseUrl | src/apps/tetris/api/apitetris.js:18-22 | a non-empty configured base is used less at most one trailing slash, kept whole exactly when it does not end in `/`; otherwise the guess is used unchanged |
| TetrisApi.ConfiguredBaseWins | src/apps/tetris/api/apitetris.js:19-20 | with a non-empty configured base the window makes no difference |
| TetrisApi.OnlyOneSlashRemoved | src/apps/tetris/api/apitetris.js:20 | a configured base ending in `//` keeps one slash |
| TetrisApi.WithPath | src/apps/tetris/api/apitetris.js:26 | a request URL is the base followed directly by the path, nothing inserted or lost |
| TetrisApi.DefaultLeaderboardUrl | src/apps/tetris/api/apitetris.js:24-36 | without configuration or window the leaderboard and score endpoints are on `http://localhost:3000` |
| TruSoundApi.ApiBase | src/apps/trusound/api/api.js:3-4 | `API_BASE` always ends in `/api`; before it stands the configured URL less at most one trailing slash when that is non-empty, otherwise `http://10.0.0.10:3000` |
| TruSoundApi.ApiBaseFallbacks | src/apps/trusound/api/api.js:3-4 | unset, null, empty and a lone `/` all fall back to `http://10.0.0.10:3000/api` |
| Storage.GetItem | src/apps/trusound/api/api.js:36-37 | a stored key reads back its record, a missing one reads as null (never undefined) |
| Storage.SetItem | src/apps/trusound/api/api.js:28 | after a write the key reads back the written record and every other key reads as before |
| Storage.RemoveItem | src/apps/trusound/api/api.js:33 | after a removal the key reads as null and every other key reads as before |
| TruSoundApi.GetSession | src/apps/trusound/api/api.js:36-37 | the stored session record when the key is present, null otherwise; never undefined |
| TruSoundApi.Intercept | src/apps/trusound/api/api.js:11-21 | with a truthy stored session token the headers are the old ones plus `Authorization: Bearer <token>` and the URL is kept; without one the config passes unchanged |
| TruSoundApi.LoginTruSound | src/apps/trusound/api/api.js:23-30 | after a successful login the session reads back as exactly the login response, other keys untouched; a rejected login writes nothing |
| TruSoundApi.LogoutTruSound | src/apps/trusound/api/api.js:32-37 | after logout the session reads as null and other keys are untouched |
| TruSoundApi.LoginThenLogout | src/apps/trusound/api/api.js:28-37 | logout after any login outcome leaves no session |
| AuthInterceptor.InjectBearer | src/apps/trusound/api/api.js:11-21 | with a truthy stored token the headers gain or overwrite `Authorization: Bearer <token>` and keep every other header and the URL; without one the config passes unchanged |
| AuthInterceptor.AuthenticatedClientHeaderIff | src/apps/trusound/api/api.js:11-20 | for a request without its own Authorization header, the header is sent exactly when the stored record has a truthy token, and then carries that token |
| TruSoundApi.LoginThenRequestsAreAuthorized | src/apps/trusound/api/api.js:11-28 | after a login whose response has a token, every client request carries `Bearer <that token>` |
| TruSoundApi.LogoutThenRequestsAreUnchanged | src/apps/trusound/api/api.js:11-34 | after logout client requests go out exactly as built |
| TruSoundApi.StreamToken | src/apps/trusound/api/api.js:69 | the query token is the stored session's token when truthy, else the empty string |
| TruSoundApi.StreamUrlRoundTrip | src/apps/trusound/api/api.js:68-73 | the stream URL splits, under `API_BASE`, into the track id and the encoded session token |
| TruSoundApi.StreamUrlInjective | src/apps/trusound/api/api.js:68-73 | under the same base and session, different tracks get different stream URLs |
| TruSoundApi.BuildTrackStreamUrl | src/apps/trusound/api/api.js:68-73 | the URL starts with `API_BASE/TruSoundCloud/tracks/` and ends with `/stream?token=` and the encoded session token; `StreamUrlRoundTrip` reads the id and token back |
| TruSoundApi.StreamUrlWithoutSession | src/apps/trusound/api/api.js:69-72 | for every store without a truthy session token (no session, or a missing or empty token) the URL carries the encoding of `""` |
| TruSoundApi.AddTrackPayload | src/apps/trusound/api/api.js:112-114 | the body always holds the track id, holds `position` exactly when it was not undefined (an explicit null is sent as null), and holds nothing else |
| TruSoundApi.AddTrackPayloadRoundTrip | src/apps/trusound/api/api.js:112-114 | reading the body back gives the track id and the position, with undefined (no key) and null (a null value) kept apart |
| BibliotecaApi.Intercept | src/apps/biblioteca/api/api.js:9-19 | with a truthy token in the `usuario` record the headers are the old ones plus `Authorization: Bearer <token>`; without one the config passes unchanged |
| BibliotecaApi.OnlyUsuarioAuthorizes | src/apps/biblioteca/api/api.js:10-11 | no key other than `usuario`, the TruSoundCloud session among them, authorizes Biblioteca requests |
| BibliotecaApi.BuildStreamUrl | src/apps/biblioteca/api/api.js:39 | the URL is relative, starts with `/api/biblioteca/` and ends with `/stream`; `StreamUrlRoundTrip` reads the movie id back |
| BibliotecaApi.Revoke | src/apps/biblioteca/pages/Biblioteca.jsx:72 | the held object URL is revoked when there is one, and nothing is revoked otherwise |
| BibliotecaApi.LoginRequest | src/apps/biblioteca/api/api.js:21-24 | the login request goes to `/api/login` through the bare client and carries no Authorization header |
| BibliotecaApi.LoginIgnoresStoredToken | src/apps/biblioteca/api/api.js:9-24 | with a `usuario` token stored, the same request through `authClient` would carry it, while `login` goes out exactly as from empty storage |
| BibliotecaApi.StreamUrlRoundTrip | src/apps/biblioteca/api/api.js:3-39 | `/api/biblioteca/<id>/stream` reads back as the movie id |
| BibliotecaApi.StreamUrlInjective | src/apps/biblioteca/api/api.js:39 | different movies have different stream URLs |
| TruSoundCloudPage.Mount | src/apps/trusound/pages/TruSoundCloud.jsx:15-24 | the first render takes its session from storage and starts with no artists, tracks, selection or player, both loading flags false and no error or login error |
| TruSoundCloudPage.LoadArtists | src/apps/trusound/pages/TruSoundCloud.jsx:26-32 | the artist list is requested exactly when the session has a token; then loading starts and the error clears, otherwise nothing changes |
| TruSoundCloudPage.NoArtistLoadWithoutToken | src/apps/trusound/pages/TruSoundCloud.jsx:27 | after logout, and on a first render with empty storage, no artist request is made |
| TruSoundCloudPage.LoginThenArtistsLoad | src/apps/trusound/pages/TruSoundCloud.jsx:26-50 | a login whose response has a token makes the page request the artists |
| TruSoundCloudPage.ArtistsArrived | src/apps/trusound/pages/TruSoundCloud.jsx:33-46 | a non-empty list is stored, selects its first artist, empties the tracks, raises `loadingTracks` and requests that artist's tracks; an empty list is stored and clears selection and tracks; a failure keeps the list and sets the artist error; loading ends in every case and no other slot changes |
| TruSoundCloudPage.SelectArtist | src/apps/trusound/pages/TruSoundCloud.jsx:52-57 | before the fetch completes the artist is selected, tracks are empty, `loadingTracks` is set and that artist's tracks are requested; nothing else changes |
| TruSoundCloudPage.TracksArrived | src/apps/trusound/pages/TruSoundCloud.jsx:56-64 | a reply installs its tracks, a failure sets the track error and keeps the list; `loadingTracks` ends false either way |
| TruSoundCloudPage.SelectThenTracksFail | src/apps/trusound/pages/TruSoundCloud.jsx:52-64 | select then a failed fetch: selection kept, tracks empty, track error shown, not loading |
| TruSoundCloudPage.SelectThenTracksArrive | src/apps/trusound/pages/TruSoundCloud.jsx:52-64 | select then a reply: exactly the received tracks under that selection, not loading |
| TruSoundCloudPage.LateTracksAreShown | src/apps/trusound/pages/TruSoundCloud.jsx:52-65 | replies are applied in arrival order: tracks of an earlier selection arriving after a later click are shown under the later artist |
| TruSoundCloudPage.PlayTrack | src/apps/trusound/pages/TruSoundCloud.jsx:67-70 | the current track and the audio URL built from that track's id under the current storage are set together; nothing else changes |
| TruSoundCloudPage.ApplyKeepsPlayerBound | src/apps/trusound/pages/TruSoundCloud.jsx:67-91 | every event keeps the player consistent: a current track exists exactly when an audio URL does, and the URL is the stream of that track |
| TruSoundCloudPage.RunKeepsPlayerBound | src/apps/trusound/pages/TruSoundCloud.jsx:174-180 | the player consistency holds after any sequence of events from a consistent state |
| TruSoundCloudPage.MountedPlayerIsBound | src/apps/trusound/pages/TruSoundCloud.jsx:15-20 | from the first render, any sequence of events leaves the player consistent |
| TruSoundCloudPage.StartLogin | src/apps/trusound/pages/TruSoundCloud.jsx:72-75 | a login attempt clears the previous login error and posts the credentials, changing nothing else |
| TruSoundCloudPage.LoginMessage | src/apps/trusound/pages/TruSoundCloud.jsx:79 | the login error is the server's message when it sent a non-empty one, otherwise `Credenciales incorrectas`; never empty |
| TruSoundCloudPage.LoginReplied | src/apps/trusound/pages/TruSoundCloud.jsx:72-82 | a successful login becomes both the page session and the stored session, every other storage key kept; a rejected one changes neither and shows the login error |
| TruSoundCloudPage.RejectedLoginShowsMessage | src/apps/trusound/pages/TruSoundCloud.jsx:72-82 | starting a login that is rejected leaves storage and the session as they were and shows a non-empty error, the server's message when it sent one, otherwise `Credenciales incorrectas` |
| TruSoundCloudPage.Logout | src/apps/trusound/pages/TruSoundCloud.jsx:84-91 | session (page and storage), artists, tracks, audio URL and current track are cleared; every other storage key, `usuario` among them, is kept; selected artist, error message, loading flags and login error are left as they were |
| TruSoundCloudPage.Subtitle | src/apps/trusound/pages/TruSoundCloud.jsx:93-96 | the prompt without a selection; otherwise the artist's name and separator, the canonical numeral (no leading zero) of the number of tracks, and the suffix |
| TruSoundCloudPage.SubtitleCount | src/apps/trusound/pages/TruSoundCloud.jsx:93-96 | for the same artist name, two subtitles are equal exactly when the track counts are, so the subtitle carries the count |
| BibliotecaPage.FetchStart | src/apps/biblioteca/pages/Biblioteca.jsx:20-29 | the catalog is requested exactly when the user record has a token; without one loading ends with the login-required error, with one loading starts and the error clears |
| BibliotecaPage.NoTokenShowsLoginRequired | src/apps/biblioteca/pages/Biblioteca.jsx:21-25 | without a token the page makes no request, stops loading, shows the login-required error and is not in the empty state |
| BibliotecaPage.FetchDone | src/apps/biblioteca/pages/Biblioteca.jsx:30-42 | after unmount nothing changes; while mounted loading ends, a reply replaces the list, a non-aborted failure sets the error, an aborted one sets none; player and stream state are untouched |
| BibliotecaPage.AbortedFetchSetsNoError | src/apps/biblioteca/pages/Biblioteca.jsx:34-35 | an aborted catalog request leaves no error |
| BibliotecaPage.LoadedCatalogEmptyState | src/apps/biblioteca/pages/Biblioteca.jsx:87 | after a successful load the empty notice shows exactly when the catalog is empty |
| BibliotecaPage.PlayStart | src/apps/biblioteca/pages/Biblioteca.jsx:61-69 | without a token only the stream error is set and nothing is requested; with one the movie is marked streaming and its blob requested; the player is untouched either way |
| BibliotecaPage.PlayDone | src/apps/biblioteca/pages/Biblioteca.jsx:70-79 | a blob installs `{movie, newUrl}` and revokes the URL the player held; a failure keeps the player and sets the playback error; no movie is marked streaming afterwards |
| BibliotecaPage.PlayAttemptEndsNotStreaming | src/apps/biblioteca/pages/Biblioteca.jsx:68-79 | a play with a token marks the movie while in flight and, whatever the outcome, ends with no movie marked |
| BibliotecaPage.ReplayRevokesPrevious | src/apps/biblioteca/pages/Biblioteca.jsx:72-73 | a second successful play revokes the first object URL and shows the second movie |
| BibliotecaPage.ClosePlayer | src/apps/biblioteca/pages/Biblioteca.jsx:82-85 | the player becomes `{null, null}` after revoking the URL it held; nothing else changes |
| BibliotecaPage.EmptyState | src/apps/biblioteca/pages/Biblioteca.jsx:87 | the empty notice never shows together with the spinner or an error, and only for an empty catalog; `LoadedCatalogEmptyState` gives when it shows after a load |
| BibliotecaPage.ApplyKeepsPlayerConsistent | src/apps/biblioteca/pages/Biblioteca.jsx:61-85 | every event keeps "the player holds a movie exactly when it holds a URL" |
| PeliculaDetalle.MatchesRoute | src/apps/biblioteca/pages/PeliculaDetalle.jsx:26 | a route id matches a movie exactly when it is the movie's id written without leading zeros |
| PeliculaDetalle.RouteExamples | src/apps/biblioteca/pages/PeliculaDetalle.jsx:26 | id 5 matches `"5"`; `"05"` and `""` match no movie |
| PeliculaDetalle.FindByRoute | src/apps/biblioteca/pages/PeliculaDetalle.jsx:26 | nothing is found exactly when no movie matches; otherwise the result is the first matching movie of the list |
| PeliculaDetalle.FetchStart | src/apps/biblioteca/pages/PeliculaDetalle.jsx:23-25 | loading starts and the catalog is requested; nothing else changes |
| PeliculaDetalle.FetchDone | src/apps/biblioteca/pages/PeliculaDetalle.jsx:22-40 | after unmount nothing changes; while mounted loading ends, the found movie or null is installed with `Película no encontrada` on a miss, a non-aborted failure sets the load error, an abort sets none, and a hit leaves an earlier error in place |
| PeliculaDetalle.MissingMovieIsNotFound | src/apps/biblioteca/pages/PeliculaDetalle.jsx:28-31 | a catalog without the route's movie ends with no movie and the not-found error |
| PeliculaDetalle.PresentMovieIsShown | src/apps/biblioteca/pages/PeliculaDetalle.jsx:26-32 | a catalog holding the route's movie ends showing a matching movie with no error on a first load |
| PeliculaDetalle.PlayStart | src/apps/biblioteca/pages/PeliculaDetalle.jsx:55-61 | with no movie loaded play does nothing; otherwise streaming starts, the stream error clears and the movie's blob is requested |
| PeliculaDetalle.PlayDone | src/apps/biblioteca/pages/PeliculaDetalle.jsx:58-69 | a blob revokes the previous video URL, if any, installs the new one and leaves the stream error as it was; a failure keeps the video and sets the error; `streaming` ends false and the movie, load error and loading flag stay |
| PeliculaDetalle.PlayEndsNotStreaming | src/apps/biblioteca/pages/PeliculaDetalle.jsx:59-69 | streaming is on while the request is out and off after any outcome |
| ScoreModal.HandleSubmit | src/apps/tetris/components/ScoreModal.jsx:27-30 | `onSave` is called exactly when not loading and the name is not all whitespace, with the trimmed name, which is non-empty and has no edge whitespace |
| ScoreModal.BlankNameNeverSaved | src/apps/tetris/components/ScoreModal.jsx:28 | an empty or whitespace-only name never reaches `onSave` |
| ScoreModal.LoadingNeverSaves | src/apps/tetris/components/ScoreModal.jsx:28 | while loading nothing reaches `onSave` |
| ScoreModal.PaddingIsIgnored | src/apps/tetris/components/ScoreModal.jsx:28-29 | surrounding a name with any run of whitespace on either side does not change what is saved |
| JsText.TrimAppendWhitespace | src/apps/tetris/components/ScoreModal.jsx:29 | trailing whitespace added to a name is trimmed away |
| JsText.TrimPrependWhitespace | src/apps/tetris/components/ScoreModal.jsx:29 | leading whitespace added to a name is trimmed away |
| JsText.TrimPrependAll | src/apps/tetris/components/ScoreModal.jsx:29 | any whitespace string put in front of a name is trimmed away |
| JsText.TrimAppendAll | src/apps/tetris/components/ScoreModal.jsx:29 | any whitespace string put after a name is trimmed away |
| LoginPanel.Submit | src/apps/trusound/components/LoginPanel.jsx:8-13 | a submit while loading changes nothing and calls nothing; otherwise loading is raised and `onSubmit`, when present, is called exactly once with the current email and password |
| LoginPanel.Settle | src/apps/trusound/components/LoginPanel.jsx:14-16 | whether the call resolved or threw, loading ends false and the fields stay |
| LoginPanel.AtMostOneCallUntilSettled | src/apps/trusound/components/LoginPanel.jsx:10-11 | any number of submits before the pending call settles makes at most one call, none if one was already pending, and leaves the panel loading |
| LoginPanel.DoubleSubmitCallsOnce | src/apps/trusound/components/LoginPanel.jsx:10 | two quick submits call `onSubmit` once |
| LoginPanel.SubmitThenSettleIsReady | src/apps/trusound/components/LoginPanel.jsx:11-16 | loading is on during the call and the panel is back to its ready state after it, also when `onSubmit` is missing |
| Leaderboard.ScoresAfterFetch | src/apps/tetris/components/Leaderboard.jsx:57-64 | a reply keeps its first `min(10, n)` entries in server order; a failure keeps what was shown |
| Leaderboard.FailedFetchShowsNothing | src/apps/tetris/components/Leaderboard.jsx:54-63 | the board starts empty, so a failed fetch leaves it empty |
| Leaderboard.Key | src/apps/tetris/components/Leaderboard.jsx:73 | the row key is the id when it is not null or undefined, otherwise `username-created_at` as a template string prints them |
| Leaderboard.DistinctIdsDistinctKeys | src/apps/tetris/components/Leaderboard.jsx:72-73 | when the server sends pairwise distinct, non-nullish ids, the rendered rows have pairwise distinct React keys |
| Leaderboard.Rows | src/apps/tetris/components/Leaderboard.jsx:72-77 | one row per entry in list order, the i-th ranked i+1, showing the upper-cased display name, the key and the score of the i-th entry |
| Leaderboard.RanksConsecutive | src/apps/tetris/components/Leaderboard.jsx:74 | ranks start at 1 and increase by one per row |
| Leaderboard.ShownRowsBounded | src/apps/tetris/components/Leaderboard.jsx:60-74 | after a fetch at most ten rows are shown, ranked between 1 and 10 |
| Leaderboard.AnonymousFallback | src/apps/tetris/components/Leaderboard.jsx:74 | a missing or empty username shows as the upper-cased `ANON`, any other username upper-cased |
| Leaderboard.DisplayName | src/apps/tetris/components/Leaderboard.jsx:74 | the username when it is a non-empty string, otherwise `ANON`; never empty |
| Leaderboard.RowsFollowServerOrder | src/apps/tetris/components/Leaderboard.jsx:60-75 | the i-th row (i < 10) has rank i+1 and shows the i-th entry the server sent: its upper-cased display name, its key and its score |

## Left out

- Playback queue, advance/retreat, drag reordering and OS media-session controls: the code has none; playback is the browser's `<audio>`/`<video>` element.
- HTTP itself: requests are effects a transition returns, and responses are events carrying a reply or a failure. Status codes and the server are not modelled.
- `JSON.parse` / `JSON.stringify` of the stored session: storage holds parsed records; a corrupt stored value (a parse exception) is not modelled.
- `import.meta.env` and `window.location` are explicit inputs; the `AuthContext` that supplies Biblioteca's `usuario` is an input record; `src/context/AuthContext` is not part of this model.
- Concurrency: completions are applied one at a time in any order; interleavings inside one handler and the stale closures of React handlers (a completion sees the state current when it is applied) are not modelled.
- Browser resources: object URLs are fresh strings supplied by the completion event and revocation is an emitted effect. `AbortController` and the `isMounted` cleanup of the fetch effects are reduced to the `mounted`/`aborted` flags of completion events.
- The `useEffect` cleanups that revoke the current object URL on unmount and whenever it changes (src/apps/biblioteca/pages/Biblioteca.jsx:53-59, src/apps/biblioteca/pages/PeliculaDetalle.jsx:49-53) are not modelled. The `RevokeObjectUrl` effects of `BibliotecaPage.PlayDone`, `BibliotecaPage.ClosePlayer` and `PeliculaDetalle.PlayDone` are the handlers' own revocations only, not every revocation the pages make.
- PeliculaDetalle.PlayDone: its failure case stands for a failed blob request. If `URL.createObjectURL` itself throws, the source has already revoked the old `videoUrl` (src/apps/biblioteca/pages/PeliculaDetalle.jsx:62 runs before :63) while keeping it in state; that practically unreachable path is not modelled. In `handlePlayMovie` the URL is created before the revocation, so there both failures coincide.
- The `console.error` logging in every `catch` (TruSoundCloud, Biblioteca, PeliculaDetalle, Leaderboard) is not modelled: it changes no state.
- Floating point: `formatSize`, the MB figures and `toLocaleString` dates.
- Markup, CSS and styled-components, and the render-only components (ArtistCard, AlbumCard, MovieCard, MeGustan).
- The TruSoundCloud API calls other than login, logout, session, stream URL and the add-to-playlist body (favorites, playlists, artist and track fetches) are plain requests with no logic of their own.
- TrackRow.FormatDuration: takes natural seconds only; fractional or negative durations, which give floating output in JavaScript, are not modelled.
- Decimal.NatToString: prints every natural exactly; JavaScript numbers are doubles, so above 2^53 (`Number.MAX_SAFE_INTEGER`) `toString` prints the shortest round-trip digits and switches to exponent notation from 1e21 on. No duration or id here is that large.
- Durations and ids are JavaScript doubles in the source and natural numbers here; `Math.floor(seconds / 60)` and `seconds % 60` are exact only up to 2^53, and rounding above that is not modelled.
- Leaderboard.AnonymousFallback: states the label as `upper("ANON")`, not the literal `ANON`, because `toUpperCase` is a parameter.
- Leaderboard.Rows: `toUpperCase` is a parameter, so nothing is stated about the case mapping itself.
- TruSoundApi.StreamUrlRoundTrip: `encodeURIComponent` is a parameter, so the token is recovered only in its encoded form.
- Ids are natural numbers; string ids, and `${id}` of other values, are not modelled.
- Request headers are one case-sensitive map; axios's header normalisation is not modelled.
