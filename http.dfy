/** What a handler answers, and the pieces of a request and of `net/url` the handlers use. */
module Http {
  import opened Wrappers
  import opened Sessions

  const StatusOK := 200
  const StatusMovedPermanently := 301
  const StatusSeeOther := 303
  const StatusTemporaryRedirect := 307
  const StatusUnauthorized := 401
  const StatusInternalServerError := 500

  /** What `index.tmpl` is rendered with: an error message, or the profile of the user logged in. */
  datatype View = Message(error: string) | Page(profile: Value)

  /** A handler's response: a rendered page, or a redirect to a location. */
  datatype Outcome = Render(status: int, view: View) | Redirect(status: int, location: string)

  /** `url.Values`: every key to its values, in the order they were added. */
  type Values = map<string, seq<string>>

  /** The values of `key`, none if it is absent. */
  function All(q: Values, key: string): seq<string>
  {
    if key in q then q[key] else []
  }

  /** `Values.Get`, gin's `Query` and `PostForm`: the first value of `key`, or `""`. */
  function First(q: Values, key: string): (v: string)
    ensures v != "" ==> |All(q, key)| > 0 && All(q, key)[0] == v
    ensures |All(q, key)| > 0 ==> v == All(q, key)[0]
  {
    if key in q && |q[key]| > 0 then q[key][0] else ""
  }

  /** `Values.Add`: appends `value` to the values of `key`. */
  function Add(q: Values, key: string, value: string): (r: Values)
    ensures r.Keys == q.Keys + {key}
    ensures All(r, key) == All(q, key) + [value]
    ensures forall k :: k != key ==> All(r, k) == All(q, k)
  {
    q[key := All(q, key) + [value]]
  }

  /** `Values.Set`: replaces the values of `key` by `value` alone. */
  function Put(q: Values, key: string, value: string): (r: Values)
    ensures r.Keys == q.Keys + {key}
    ensures All(r, key) == [value]
    ensures forall k :: k != key ==> All(r, k) == All(q, k)
  {
    q[key := [value]]
  }

  /** A parsed `url.URL`, its query kept decoded. */
  datatype Url = Url(scheme: string, host: string, path: string, query: Values)

  /**
   * The `net/url` library, which this model does not compute: `parse` is
   * `url.Parse` (`None` for its error), `render` is `URL.String`, and
   * `encode` is `Values.Encode`.
   */
  datatype UrlCodec = UrlCodec(parse: string -> Option<Url>, render: Url -> string, encode: Values -> string)

  /** The parts of a gin request the handlers read. */
  datatype Request = Request(tls: bool, host: string, query: Values, form: Values)
}
