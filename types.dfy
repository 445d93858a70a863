/** The records the client reads and produces: its options, the request it hands to the
    host `fetch`, what the host does with it, and the result it returns. */
module Types {
  import opened Nullish
  import opened Values
  import opened Records
  import opened Enums

  /** Next.js cache directives: `{ revalidate?, tags? }`. */
  datatype NextConfig = NextConfig(revalidate: Option<int>, tags: Option<seq<string>>)

  /** What the host runtime or a hook throws. `TypeErrorKind` is any `TypeError` (the class
      the host uses for a request that could not be made), `ResponseLike` a thrown `Response`,
      `ThrownNull` a `throw null` or `throw undefined`, and `Other` everything else, told
      apart only by an identity. */
  datatype Thrown =
    | TypeErrorKind(message: string)
    | ResponseLike(status: int, statusText: string)
    | ThrownNull
    | Other(id: nat)

  /** A thrown value as a field of a result: `null` and `undefined` leave it empty. */
  function ThrownField(t: Thrown): (r: Option<Thrown>)
    ensures r.None? <==> t.ThrownNull?
    ensures r.Some? ==> r.value == t
  {
    if t.ThrownNull? then None else Some(t)
  }

  /** A lifecycle callback, known by what calling it does: it returns, or it throws. */
  datatype Hook = Returns | Throws(thrown: Thrown)

  /** The options record, at the instance and at the call site. Every field may be absent. */
  datatype Options = Options(
    baseURL: Option<string>,
    headers: Option<Entries<string>>,
    params: Option<Entries<Scalar>>,
    timeout: Option<int>,
    mode: Option<string>,
    cache: Option<string>,
    credentials: Option<string>,
    redirect: Option<string>,
    referrer: Option<string>,
    referrerPolicy: Option<string>,
    responseFormat: Option<ResponseFormat>,
    next: Option<NextConfig>,
    showLogs: Option<bool>,
    onRequest: Option<Hook>,
    onSuccess: Option<Hook>,
    onError: Option<Hook>,
    onInternalError: Option<Hook>)

  /** `{}`: no option given. A call without options reads like a call with these. */
  const EmptyOptions := Options(None, None, None, None, None, None, None, None, None, None, None, None, None, None, None, None, None)

  /** A request body as the caller passes it: a primitive, a plain object, or a `FormData`. */
  datatype Body = Primitive(value: Scalar) | PlainObject(id: nat) | Form(id: nat)

  /** `if (body)`. */
  predicate BodyTruthy(b: Body)
  {
    match b
    case Primitive(v) => Truthy(v)
    case _ => true
  }

  /** The body placed in the request: the `FormData` itself, or the text `JSON.stringify` gave. */
  datatype SentBody = FormBody(id: nat) | JsonText(text: string)

  /** The options handed to the host `fetch` (its abort signal given by its timeout). */
  datatype RequestConfig = RequestConfig(
    httpMethod: Method,
    headers: Entries<string>,
    mode: Option<string>,
    credentials: Option<string>,
    redirect: Option<string>,
    referrer: Option<string>,
    referrerPolicy: Option<string>,
    timeout: int,
    cache: Option<string>,
    body: Option<SentBody>,
    next: Option<NextConfig>)

  /** A decoded response body: the JSON value `null`, or any other value, known only by
      an identity. */
  datatype Payload = Payload(id: nat) | JsonNull

  /** A decoded body as a field of a result: a `null` body leaves it empty. */
  function PayloadField(p: Payload): (r: Option<Payload>)
    ensures r.None? <==> p.JsonNull?
    ensures r.Some? ==> r.value == p
  {
    if p.JsonNull? then None else Some(p)
  }

  /** What a body decoder (`response.json()`, `.text()`, ...) does: it yields a value or throws. */
  datatype Decoded = Parsed(value: Payload) | ParseFailed(thrown: Thrown)

  /** What the host `fetch` does with the request: it completes with a response whose
      `decode` tells what each decoder would yield, or it throws. */
  datatype HostOutcome =
    | Completed(status: int, statusText: string, contentType: Option<string>, decode: ResponseFormat -> Decoded)
    | Threw(thrown: Thrown)

  /** `FetchlyResult`. */
  datatype FetchlyResult = FetchlyResult(
    data: Option<Payload>,
    status: Status,
    statusCode: int,
    statusText: string,
    hasError: bool,
    errorType: Option<ErrorType>,
    error: Option<Payload>,
    internalError: Option<Thrown>)

  /** How the promise of a call settles: with a result, or rejected by a thrown value. */
  datatype FetchOutcome = Resolved(result: FetchlyResult) | Rejected(thrown: Thrown)

  datatype HookKind = OnRequest | OnSuccess | OnError | OnInternalError

  /** Whose hook fired: the instance's or the one passed with the call. */
  datatype Tier = Instance | CallSite

  /** One hook invocation, in the order they happen. */
  datatype Event = Event(kind: HookKind, tier: Tier)
}
