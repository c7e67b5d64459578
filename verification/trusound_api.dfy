/**
 * The TruSoundCloud API module: its base URL, its authenticated client, the
 * persisted session, the `<audio>` stream URL and the add-to-playlist body.
 */
module TruSoundApi {
  import opened Js
  import opened Decimal
  import opened JsText
  import opened Storage
  import opened AuthInterceptor

  const DefaultApiUrl := "http://10.0.0.10:3000"
  const ApiSuffix := "/api"
  const SessionKey := "trusound_session"
  const TracksPath := "/TruSoundCloud/tracks/"
  const StreamQuery := "/stream?token="

  /**
   * `API_BASE` from `VITE_API_URL`: the URL less one trailing slash when that
   * leaves something, otherwise the fixed LAN default, then `/api`. A
   * configured `"/"` strips to the empty string and so falls back too.
   */
  function ApiBase(env: Js<string>): (r: string)
    ensures |r| >= |ApiSuffix| && r[|r| - |ApiSuffix|..] == ApiSuffix
    ensures var prefix := r[..|r| - |ApiSuffix|];
            if env.Val? && StripTrailingSlash(env.v) != "" then
              prefix == env.v || prefix + "/" == env.v
            else
              prefix == DefaultApiUrl
    ensures env.Val? && StripTrailingSlash(env.v) != "" ==>
              (r[..|r| - |ApiSuffix|] == env.v <==> !EndsWithSlash(env.v))
  {
    var configured := if env.Val? then Val(StripTrailingSlash(env.v)) else Undefined;
    var r := OrElse(configured, DefaultApiUrl) + ApiSuffix;
    assert r[|r| - |ApiSuffix|..] == ApiSuffix;
    assert r[..|r| - |ApiSuffix|] == OrElse(configured, DefaultApiUrl);
    r
  }

  /** Unset, null, empty and a lone slash all fall back to the default. */
  lemma ApiBaseFallbacks()
    ensures ApiBase(Undefined) == "http://10.0.0.10:3000/api"
    ensures ApiBase(Null) == ApiBase(Undefined)
    ensures ApiBase(Val("")) == ApiBase(Undefined)
    ensures ApiBase(Val("/")) == ApiBase(Undefined)
  {
  }

  /** `getTruSoundSession()`: the stored record, or null when there is none; never undefined. */
  function GetSession(store: Store): (r: Js<Session>)
    ensures SessionKey in store ==> r == Val(store[SessionKey])
    ensures SessionKey !in store ==> r == Null
  {
    GetItem(store, SessionKey)
  }

  /** How `loginTruSound` ends: the response body, or a rejection carrying `err.response.data.message`. */
  datatype LoginReply = LoginOk(data: Session) | LoginRejected(message: Js<string>)

  /**
   * `loginTruSound`'s effect on storage: the response body is persisted under
   * the session key; a rejected request throws before writing anything.
   */
  function LoginTruSound(store: Store, reply: LoginReply): (r: Store)
    ensures reply.LoginOk? ==> GetSession(r) == Val(reply.data)
    ensures reply.LoginOk? ==> forall k :: k != SessionKey ==> GetItem(r, k) == GetItem(store, k)
    ensures reply.LoginRejected? ==> r == store
  {
    match reply
    case LoginOk(data) => SetItem(store, SessionKey, data)
    case LoginRejected(_) => store
  }

  /** `logoutTruSound`: the session key is gone, nothing else is touched. */
  function LogoutTruSound(store: Store): (r: Store)
    ensures GetSession(r) == Null
    ensures forall k :: k != SessionKey ==> GetItem(r, k) == GetItem(store, k)
  {
    RemoveItem(store, SessionKey)
  }

  /**
   * The configuration the TruSoundCloud client sends, after its interceptor:
   * the stored session's token, when truthy, as a bearer header.
   */
  function Intercept(store: Store, config: RequestConfig): (r: RequestConfig)
    ensures HasToken(GetSession(store)) ==>
              r.headers == config.headers[AuthorizationHeader := BearerValue(store[SessionKey].token.v)]
    ensures !HasToken(GetSession(store)) ==> r == config
    ensures r.url == config.url
  {
    Prepare(Authenticated(SessionKey), store, config)
  }

  /** After a login with a token, every client request carries that token as a bearer header. */
  lemma LoginThenRequestsAreAuthorized(store: Store, data: Session, config: RequestConfig)
    requires TruthyString(data.token)
    ensures var sent := Intercept(LoginTruSound(store, LoginOk(data)), config);
            && AuthorizationHeader in sent.headers
            && sent.headers[AuthorizationHeader] == BearerValue(data.token.v)
            && sent.url == config.url
  {
  }

  /** After logout, client requests go out exactly as the caller built them. */
  lemma LogoutThenRequestsAreUnchanged(store: Store, config: RequestConfig)
    ensures Intercept(LogoutTruSound(store), config) == config
  {
  }

  /** Logging out after logging in leaves no session, whatever the login returned. */
  lemma LoginThenLogout(store: Store, reply: LoginReply)
    ensures GetSession(LogoutTruSound(LoginTruSound(store, reply))) == Null
  {
  }

  /** `getTruSoundSession()?.token || ''`. */
  function StreamToken(store: Store): (t: string)
    ensures HasToken(GetSession(store)) ==> t == store[SessionKey].token.v
    ensures !HasToken(GetSession(store)) ==> t == ""
  {
    var s := GetSession(store);
    if s.Val? then OrElse(s.v.token, "") else ""
  }

  /**
   * `buildTrackStreamUrl`: the `<audio>` element cannot send headers, so the
   * token travels URL-encoded in the query string. `encode` stands for
   * `encodeURIComponent`.
   */
  function BuildTrackStreamUrl(apiBase: string, store: Store, trackId: nat, encode: string -> string): (url: string)
    ensures var p := apiBase + TracksPath;
            |p| <= |url| && url[..|p|] == p
    ensures var t := StreamQuery + encode(StreamToken(store));
            |t| <= |url| && url[|url| - |t|..] == t
  {
    var p := apiBase + TracksPath;
    var t := StreamQuery + encode(StreamToken(store));
    var url := p + NatToString(trackId) + t;
    assert url[..|p|] == p;
    assert url[|url| - |t|..] == t;
    url
  }

  /** Splits a stream URL under `apiBase` into the track id and the encoded token. */
  function ParseTrackStreamUrl(apiBase: string, url: string): Option<(nat, string)> {
    var p := apiBase + TracksPath;
    if |url| < |p| || url[..|p|] != p then None
    else
      var rest := url[|p|..];
      var k := IndexOf(rest, '/');
      var id := rest[..k];
      var tail := rest[k..];
      if IsCanonical(id) && |StreamQuery| <= |tail| && tail[..|StreamQuery|] == StreamQuery then
        Some((Value(id), tail[|StreamQuery|..]))
      else None
  }

  /** A URL assembled from a canonical id and a query value splits back into the two. */
  lemma ParseStreamParts(apiBase: string, id: string, value: string)
    requires IsCanonical(id)
    ensures ParseTrackStreamUrl(apiBase, apiBase + TracksPath + id + StreamQuery + value) == Some((Value(id), value))
  {
    var p := apiBase + TracksPath;
    var tail := StreamQuery + value;
    var url := apiBase + TracksPath + id + StreamQuery + value;
    assert url == p + (id + tail);
    assert url[..|p|] == p;
    var rest := url[|p|..];
    assert rest == id + tail;
    IndexOfAfterDigits(id, tail);
    assert rest[..|id|] == id;
    assert rest[|id|..] == tail;
    assert tail[..|StreamQuery|] == StreamQuery;
    assert tail[|StreamQuery|..] == value;
  }

  /** A stream URL names its track and the encoded token of the session it was built under. */
  lemma StreamUrlRoundTrip(apiBase: string, store: Store, trackId: nat, encode: string -> string)
    ensures ParseTrackStreamUrl(apiBase, BuildTrackStreamUrl(apiBase, store, trackId, encode))
            == Some((trackId, encode(StreamToken(store))))
  {
    var id := NatToString(trackId);
    var value := encode(StreamToken(store));
    assert BuildTrackStreamUrl(apiBase, store, trackId, encode) == apiBase + TracksPath + id + StreamQuery + value;
    NatToStringIsCanonical(trackId);
    ValueOfNatToString(trackId);
    ParseStreamParts(apiBase, id, value);
  }

  /** Different tracks get different stream URLs under the same base and session. */
  lemma StreamUrlInjective(apiBase: string, store: Store, a: nat, b: nat, encode: string -> string)
    ensures BuildTrackStreamUrl(apiBase, store, a, encode) == BuildTrackStreamUrl(apiBase, store, b, encode) ==> a == b
  {
    StreamUrlRoundTrip(apiBase, store, a, encode);
    StreamUrlRoundTrip(apiBase, store, b, encode);
  }

  /**
   * With no stored session, or one whose token is missing or empty, the query
   * carries the encoding of the empty string.
   */
  lemma StreamUrlWithoutSession(apiBase: string, store: Store, trackId: nat, encode: string -> string)
    requires !HasToken(GetSession(store))
    ensures ParseTrackStreamUrl(apiBase, BuildTrackStreamUrl(apiBase, store, trackId, encode))
            == Some((trackId, encode("")))
  {
    StreamUrlRoundTrip(apiBase, store, trackId, encode);
  }

  /** The JSON values an add-to-playlist body can hold. */
  datatype Json = JNull | JNum(n: int)

  /**
   * The `addTrackToPlaylist` body: always the track id, and `position` exactly
   * when the caller passed something other than `undefined` (so an explicit
   * `null` is sent).
   */
  function AddTrackPayload(trackId: nat, position: Js<int>): (body: map<string, Json>)
    ensures "trackId" in body && body["trackId"] == JNum(trackId)
    ensures "position" in body <==> !position.Undefined?
    ensures position.Null? ==> body["position"] == JNull
    ensures position.Val? ==> body["position"] == JNum(position.v)
    ensures body.Keys <= {"trackId", "position"}
  {
    var payload := map["trackId" := JNum(trackId)];
    match position
    case Undefined => payload
    case Null => payload["position" := JNull]
    case Val(p) => payload["position" := JNum(p)]
  }

  /**
   * How a receiver reads an add-to-playlist body: the track id, and the
   * position as absent, `null` or a number.
   */
  function ReadTrackPayload(body: map<string, Json>): Option<(nat, Js<int>)> {
    if "trackId" in body && body["trackId"].JNum? && body["trackId"].n >= 0 then
      var position :=
        if "position" !in body then Undefined
        else match body["position"]
          case JNull => Null
          case JNum(p) => Val(p);
      Some((body["trackId"].n, position))
    else None
  }

  /** The body loses nothing: the track id and the position, `undefined` and `null` kept apart, read back. */
  lemma AddTrackPayloadRoundTrip(trackId: nat, position: Js<int>)
    ensures ReadTrackPayload(AddTrackPayload(trackId, position)) == Some((trackId, position))
  {
  }
}
