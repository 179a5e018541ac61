/**
 * The per-request session of `gin-contrib/sessions`: a key/value store
 * loaded from the signed session cookie. `Set` changes only the in-memory
 * map; `Save` writes that map back to the cookie, and may fail.
 */
module Sessions {
  import opened Wrappers

  /** A JSON value as Go's `encoding/json` decodes it into `interface{}`. */
  datatype Json =
    | Null
    | Bool(b: bool)
    | Number(n: int)
    | Text(s: string)
    | Array(items: seq<Json>)
    | Object(fields: map<string, Json>)

  /** What the handlers keep in a session: strings (`state`, `id_token`, `access_token`) and the claims map (`profile`). */
  datatype Value = Str(s: string) | Claims(claims: map<string, Json>)

  type Store = map<string, Value>

  /** `sess.Get(key)`: the stored value, or nil (`None`). */
  function Lookup(store: Store, key: string): (r: Option<Value>)
    ensures r.Some? <==> key in store
    ensures r.Some? ==> r.value == store[key]
  {
    if key in store then Some(store[key]) else None
  }

  /** The session store as it is after a request: what it persisted if its save succeeded, the old cookie otherwise. */
  function Persist(cookie: Store, writes: Store, saved: bool): (r: Store)
    ensures saved ==> r.Keys == cookie.Keys + writes.Keys
    ensures !saved ==> r == cookie
    ensures forall k :: k in writes && saved ==> r[k] == writes[k]
    ensures forall k :: k in cookie && k !in writes ==> r[k] == cookie[k]
  {
    if saved then cookie + writes else cookie
  }

  class Session {
    /** The values `Get` sees: the loaded cookie plus every `Set` of this request. */
    var pending: Store
    /** The values the session cookie holds: those loaded, or those of the last successful `Save`. */
    var persisted: Store

    /** `sessions.Default(ctx)`: the session decoded from the request's cookie. */
    constructor Load(cookie: Store)
      ensures pending == cookie && persisted == cookie
    {
      pending := cookie;
      persisted := cookie;
    }

    /** `sess.Get`: the value this request sees for `key`, if any. */
    function Get(key: string): (r: Option<Value>)
      reads this
      ensures r.Some? <==> key in pending
      ensures r.Some? ==> r.value == pending[key]
    {
      Lookup(pending, key)
    }

    method Set(key: string, value: Value)
      modifies this
      ensures pending == old(pending)[key := value]
      ensures persisted == old(persisted)
    {
      pending := pending[key := value];
    }

    /** Writes the session cookie; `ok` is the outcome of encoding and signing it, which this model does not compute. */
    method Save(ok: bool) returns (failed: bool)
      modifies this
      ensures failed == !ok
      ensures pending == old(pending)
      ensures persisted == if ok then pending else old(persisted)
    {
      failed := !ok;
      if ok {
        persisted := pending;
      }
    }
  }
}
