/**
 * `localStorage` as an abstract key-value store of already-parsed session
 * records. A missing key reads as `null`, which is what
 * `JSON.parse(localStorage.getItem(key))` yields for it.
 */
module Storage {
  import opened Js

  datatype User = User(id: nat, email: string)

  /** The record a login endpoint answers with and the front-end persists. */
  datatype Session = Session(token: Js<string>, user: Js<User>)

  type Store = map<string, Session>

  /** The parsed record under `key`, or `null` when nothing is stored there. */
  function GetItem(store: Store, key: string): (r: Js<Session>)
    ensures r.Val? <==> key in store
    ensures r.Val? ==> r.v == store[key]
    ensures !r.Undefined?
  {
    if key in store then Val(store[key]) else Null
  }

  /** `localStorage.setItem(key, JSON.stringify(record))`. */
  function SetItem(store: Store, key: string, record: Session): (r: Store)
    ensures GetItem(r, key) == Val(record)
    ensures forall k :: k != key ==> GetItem(r, k) == GetItem(store, k)
  {
    store[key := record]
  }

  /** `localStorage.removeItem(key)`. */
  function RemoveItem(store: Store, key: string): (r: Store)
    ensures GetItem(r, key) == Null
    ensures forall k :: k != key ==> GetItem(r, k) == GetItem(store, k)
  {
    store - {key}
  }

  /** `record?.token` is truthy: the record is present and carries a non-empty token. */
  predicate HasToken(record: Js<Session>) {
    record.Val? && TruthyString(record.v.token)
  }
}
