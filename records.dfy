/**
 * The remote "Services" (certificate) resource as the pages see it: the record, the shapes a
 * JSON response body can take, the outcome of one HTTP request, and the presentation rules
 * that the admin list and the public verification page share.
 */
module Records {
  import opened Wrappers
  import opened JsText

  /** `{country, state, streetAddress}`; an empty string stands for a missing or falsy field. */
  datatype Location = Location(country: string, state: string, streetAddress: string)

  /**
   * One certificate as the API returns it. `name` and `serialNumber` (the API's `s_N`) are
   * empty when missing, `methodCode` is the API's numeric `method`, and dates are abstract
   * instants, `None` when missing.
   */
  datatype Service = Service(
    id: int,
    name: string,
    serialNumber: string,
    methodCode: int,
    startDate: Option<int>,
    endDate: Option<int>,
    location: Option<Location>)

  /** The `$values` field of a response object: missing or falsy, an array, or a truthy value that is neither an array nor a string. */
  datatype Values = Absent | Items(items: seq<Service>) | NotArray

  /**
   * A parsed JSON body. `Falsy` is `false`, `0` or `""`; `Scalar` is a truthy number or
   * `true`; an `Object` is read both as a record and for its `$values` envelope.
   */
  datatype Body =
    | Null
    | Falsy
    | Scalar
    | Array(items: seq<Service>)
    | Object(record: Service, values: Values)

  /** JavaScript truthiness of a body: every array and object is truthy, even `[]`. */
  predicate Truthy(b: Body) {
    !(b.Null? || b.Falsy?)
  }

  /** What one `fetch` produces: an ok response with a parsable or malformed body, a non-ok status, or a rejection. */
  datatype Fetch =
    | Ok(body: Body)
    | OkMalformed
    | NotOk(status: int)
    | TimedOut
    | NetworkDown

  /** Why an API call rejected: a non-ok status, an AbortError, a network failure, or a body `response.json()` could not parse. */
  datatype ApiError = HttpStatus(status: int) | Aborted | NetworkFailure | MalformedJson

  /** A toast request a page makes: title, description and the variant, when one is given. */
  datatype Notice = Notice(title: string, description: string, variant: Option<string>)

  /**
   * The records a page takes from a search call: `if (results && results.length > 0)` holds
   * only for a non-empty array; a truthy scalar or an object has no positive length.
   */
  function ResultItems(r: Result<Body, ApiError>): (items: seq<Service>)
    ensures items != [] <==> r.Success? && r.value.Array? && r.value.items != []
    ensures items != [] ==> items == r.value.items
  {
    if r.Success? && r.value.Array? then r.value.items else []
  }

  const TYPE_PREFIX := "Certificate Type "

  /** The certificate title derived from the numeric method code (`method` in the API). */
  function CertificateTitle(code: int): (title: string)
    ensures title == "ISO Certificate" <==> code == 1
    ensures code != 1 ==> StartsWith(title, TYPE_PREFIX) && title[|TYPE_PREFIX|..] == IntToString(code)
  {
    if code == 1 then "ISO Certificate"
    else
      var t := TYPE_PREFIX + IntToString(code);
      assert t[0] != "ISO Certificate"[0];
      assert t[..17] == TYPE_PREFIX;
      assert t[17..] == IntToString(code);
      t
  }

  /** Different method codes give different titles. */
  lemma CertificateTitleInjective(a: int, b: int)
    ensures CertificateTitle(a) == CertificateTitle(b) <==> a == b
  {
    if CertificateTitle(a) == CertificateTitle(b) && a != 1 && b != 1 {
      IntToStringInjective(a, b);
    }
  }

  /** A certificate is `active` exactly when it has an end date later than `now`. */
  function CertificateStatus(endDate: Option<int>, now: int): (status: string)
    ensures status == "active" <==> endDate.Some? && endDate.value > now
    ensures status == "active" || status == "expired"
  {
    if endDate.Some? && endDate.value > now then "active" else "expired"
  }

  /** `value || fallback` on a string field. */
  function OrDefault(value: string, fallback: string): (r: string)
    ensures r == (if value == "" then fallback else value)
  {
    if value != "" then value else fallback
  }
}
