/**
 * The axios request interceptor both API clients install: it reads a stored
 * session record and, when it holds a token, adds a bearer `Authorization`
 * header to the outgoing request configuration.
 */
module AuthInterceptor {
  import opened Js
  import opened Storage

  const AuthorizationHeader := "Authorization"

  /** The parts of an axios request configuration the interceptor touches or passes along. */
  datatype RequestConfig = RequestConfig(url: string, headers: map<string, string>)

  /** Which axios instance sends a request: the bare default export, or a client with the interceptor keyed on a storage key. */
  datatype Client = Bare | Authenticated(storageKey: string)

  function BearerValue(token: string): string {
    "Bearer " + token
  }

  /**
   * The interceptor body given the parsed stored record: with a token, the
   * headers gain (or have overwritten) `Authorization: Bearer <token>` and every
   * other header is kept; without one the configuration passes unchanged.
   */
  function InjectBearer(record: Js<Session>, config: RequestConfig): (r: RequestConfig)
    ensures r.url == config.url
    ensures HasToken(record) ==>
              && AuthorizationHeader in r.headers
              && r.headers[AuthorizationHeader] == BearerValue(record.v.token.v)
    ensures HasToken(record) ==>
              forall h :: h != AuthorizationHeader ==>
                (h in r.headers <==> h in config.headers) &&
                (h in config.headers ==> r.headers[h] == config.headers[h])
    ensures HasToken(record) ==> r.headers.Keys == config.headers.Keys + {AuthorizationHeader}
    ensures !HasToken(record) ==> r == config
  {
    if HasToken(record) then
      config.(headers := config.headers[AuthorizationHeader := BearerValue(record.v.token.v)])
    else
      config
  }

  /** The configuration a client actually sends, given the storage at send time. */
  function Prepare(client: Client, store: Store, config: RequestConfig): RequestConfig {
    match client
    case Bare => config
    case Authenticated(key) => InjectBearer(GetItem(store, key), config)
  }

  /**
   * Through an authenticated client the header is present with the stored
   * token exactly when the record under its key holds a token (given the
   * request did not bring its own Authorization header).
   */
  lemma AuthenticatedClientHeaderIff(key: string, store: Store, config: RequestConfig)
    requires AuthorizationHeader !in config.headers
    ensures var r := Prepare(Authenticated(key), store, config);
            AuthorizationHeader in r.headers <==> HasToken(GetItem(store, key))
    ensures HasToken(GetItem(store, key)) ==>
              Prepare(Authenticated(key), store, config).headers[AuthorizationHeader]
                == BearerValue(store[key].token.v)
  {
  }
}
