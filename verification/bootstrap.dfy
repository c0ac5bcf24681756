/**
 * The client side of the bootstrap discovery service (kitsune_p2p spawn actor).
 *
 * Three operations, `put`, `now` and `random`, each one POST to a single
 * configured URL through `do_api`. Everything the client cannot see is an
 * input: the value of the environment variable, the msgpack codec (an encoder
 * and a decoder that may fail), the HTTP exchange (a function from the request
 * sent to the reply received) and the local wall clock.
 */
module Bootstrap {
  import opened Wrappers
  import Timeout

  type Byte = x: int | 0 <= x < 256
  type Bytes = seq<Byte>
  type U32 = x: int | 0 <= x < 0x1_0000_0000
  type U64 = x: int | 0 <= x < 0x1_0000_0000_0000_0000

  const U64Bound: nat := Timeout.U64Bound
  const NanosPerMilli: nat := Timeout.NanosPerMilli

  /** The variable whose value `EnvVar` stands for. */
  const BootstrapUrlEnv: string := "P2P_BOOTSTRAP_URL"
  const BootstrapUrlDefault: string := "https://bootstrap.holo.host"
  // The development server and the default sample size are declared but unused by the client.
  const BootstrapUrlDev: string := "https://bootstrap-dev.holohost.workers.dev"
  const RandomLimitDefault: U32 := 256

  const OpHeader: string := "X-Op"
  const OpPut: string := "put"
  const OpNow: string := "now"
  const OpRandom: string := "random"
  const ContentTypeHeader: string := "content-type"
  const ContentType: string := "application/octet"

  /** What reading the environment variable `P2P_BOOTSTRAP_URL` gives. */
  datatype EnvVar = Unset | Set(value: string)

  datatype CodecError = CodecError(reason: string)
  datatype HttpError = HttpError(reason: string)

  /** The `KitsuneP2pError`s this client produces. */
  datatype P2pError =
    | Codec(codec: CodecError)     // msgpack encode or decode failed
    | Http(http: HttpError)        // the request failed or its body could not be read
    | Bootstrap(text: Bytes)       // the server answered with a non-success status
    | ClockBeforeEpoch             // the wall clock is earlier than the Unix epoch
    | MillisOutOfRange             // milliseconds since the epoch do not fit in u64

  type P2pResult<T> = Result<T, P2pError>

  /** One POST request as the client builds it. */
  datatype Request = Request(url: string, headers: seq<(string, string)>, body: Bytes)

  /** What the HTTP exchange gives back: a failure to send, or a response whose body may fail to arrive. */
  datatype HttpReply = TransportErr(error: HttpError) | Response(status: nat, body: Result<Bytes, HttpError>)

  /** `RandomQuery`: the space to sample and how many records to return at most. */
  datatype RandomQuery = RandomQuery(space: Bytes, limit: U32)

  /** The local wall clock, in nanoseconds since the Unix epoch, or earlier than the epoch. */
  datatype WallClock = SinceEpoch(nanos: nat) | BeforeEpoch

  // ------------------------------------------------------------ URL resolution

  /**
   * `BOOTSTRAP_URL`: unset falls back to the default server, set to the empty
   * string disables bootstrapping, any other value is used verbatim.
   */
  function BootstrapUrl(env: EnvVar): (r: Option<string>)
    ensures r.None? <==> env == Set("")
    ensures r.Some? ==> r.value != ""
    ensures env.Unset? ==> r == Some(BootstrapUrlDefault)
    ensures env.Set? && env.value != "" ==> r == Some(env.value)
  {
    match env
    case Set(v) => if v == "" then None else Some(v)
    case Unset => Some(BootstrapUrlDefault)
  }

  /**
   * `select_url`: an override is returned as it is, without any check that it is
   * non-empty; otherwise the configured value. The environment is read afresh on
   * every call, so it is a parameter of each call.
   */
  function SelectUrl(urlOverride: Option<string>, env: EnvVar): (r: Option<string>)
    ensures urlOverride.Some? ==> r == urlOverride
    ensures urlOverride.None? ==> r == BootstrapUrl(env)
  {
    match urlOverride
    case Some(url) => Some(url)
    case None => BootstrapUrl(env)
  }

  /** Discovery is disabled exactly when there is no override and the variable is set to the empty string. */
  lemma DisabledExactlyWhenSetEmpty(urlOverride: Option<string>, env: EnvVar)
    ensures SelectUrl(urlOverride, env).None? <==> urlOverride.None? && env == Set("")
  {
  }

  // ------------------------------------------------------------ do_api

  /** `StatusCode::is_success`: a 2xx status. */
  predicate IsSuccess(status: nat)
  {
    200 <= status < 300
  }

  /** The request `do_api` posts: the body, then the operation tag and the content type as headers. */
  function BuildRequest(url: string, op: string, body: Bytes): (req: Request)
    ensures req.url == url && req.body == body
    ensures (OpHeader, op) in req.headers && (ContentTypeHeader, ContentType) in req.headers
    ensures |req.headers| == 2
  {
    Request(url, [(OpHeader, op), (ContentTypeHeader, ContentType)], body)
  }

  /**
   * Reading a reply: a success status decodes the body; any other status makes
   * the body the text of a `Bootstrap` error; transport, body and decode
   * failures propagate unchanged.
   */
  function ReadReply<O>(reply: HttpReply, decode: Bytes -> Result<O, CodecError>): (r: P2pResult<O>)
    ensures reply.TransportErr? ==> r == Err(Http(reply.error))
    ensures reply.Response? && reply.body.Err? ==> r == Err(Http(reply.body.error))
    ensures r.Ok? <==> reply.Response? && IsSuccess(reply.status) && reply.body.Ok? && decode(reply.body.value).Ok?
    ensures r.Ok? ==> r.value == decode(reply.body.value).value
    ensures reply.Response? && IsSuccess(reply.status) && reply.body.Ok? && decode(reply.body.value).Err? ==>
              r == Err(Codec(decode(reply.body.value).error))
    ensures r.Err? && r.error.Bootstrap? <==>
              reply.Response? && !IsSuccess(reply.status) && reply.body.Ok?
    ensures r.Err? && r.error.Bootstrap? ==> r.error.text == reply.body.value
  {
    match reply
    case TransportErr(e) => Err(Http(e))
    case Response(status, body) =>
      match body
      case Err(e) => Err(Http(e))
      case Ok(bytes) =>
        if IsSuccess(status) then
          match decode(bytes)
          case Ok(v) => Ok(v)
          case Err(e) => Err(Codec(e))
        else
          Err(Bootstrap(bytes))
  }

  /** The outcome of `do_api` together with the request it put on the network, if any. */
  datatype Exchange<O> = Exchange(result: P2pResult<Option<O>>, sent: Option<Request>)

  /**
   * `do_api`: encode the input first; with no URL, succeed with nothing and send
   * nothing; with a URL, post exactly one tagged request and read its reply.
   */
  function DoApi<I, O>(urlOverride: Option<string>, env: EnvVar, op: string, input: I,
                       encode: I -> Result<Bytes, CodecError>, decode: Bytes -> Result<O, CodecError>,
                       post: Request -> HttpReply): (x: Exchange<O>)
    ensures encode(input).Err? ==> x == Exchange(Err(Codec(encode(input).error)), None)
    ensures encode(input).Ok? && SelectUrl(urlOverride, env).None? ==> x == Exchange(Ok(None), None)
    ensures x.sent.Some? <==> encode(input).Ok? && SelectUrl(urlOverride, env).Some?
    ensures x.sent.Some? ==>
              && x.sent.value == BuildRequest(SelectUrl(urlOverride, env).value, op, encode(input).value)
              && x.result == match ReadReply(post(x.sent.value), decode)
                             case Ok(v) => Ok(Some(v))
                             case Err(e) => Err(e)
  {
    match encode(input)
    case Err(e) => Exchange(Err(Codec(e)), None)
    case Ok(body) =>
      match SelectUrl(urlOverride, env)
      case None => Exchange(Ok(None), None)
      case Some(url) =>
        var req := BuildRequest(url, op, body);
        match ReadReply(post(req), decode)
        case Ok(v) => Exchange(Ok(Some(v)), Some(req))
        case Err(e) => Exchange(Err(e), Some(req))
  }

  /** `do_api` succeeds with no value only when discovery is disabled. */
  lemma DoApiNoneMeansDisabled<I, O>(urlOverride: Option<string>, env: EnvVar, op: string, input: I,
                                     encode: I -> Result<Bytes, CodecError>, decode: Bytes -> Result<O, CodecError>,
                                     post: Request -> HttpReply)
    ensures DoApi(urlOverride, env, op, input, encode, decode, post).result == Ok(None) <==>
              encode(input).Ok? && urlOverride.None? && env == Set("")
  {
  }

  // ------------------------------------------------------------ put, now, random

  /** `put`: publish a signed agent record; with discovery disabled this is a silent success. */
  function Put<A>(urlOverride: Option<string>, env: EnvVar, agentInfoSigned: A,
                  encode: A -> Result<Bytes, CodecError>, decode: Bytes -> Result<(), CodecError>,
                  post: Request -> HttpReply): (r: P2pResult<()>)
    ensures r.Err? <==> DoApi(urlOverride, env, OpPut, agentInfoSigned, encode, decode, post).result.Err?
    ensures r.Err? ==> r.error == DoApi(urlOverride, env, OpPut, agentInfoSigned, encode, decode, post).result.error
  {
    match DoApi(urlOverride, env, OpPut, agentInfoSigned, encode, decode, post).result
    case Ok(Some(v)) => Ok(v)
    case Ok(None) => Ok(())
    case Err(e) => Err(e)
  }

  /** Milliseconds since the epoch from the local clock, converted to u64. */
  function LocalMillis(clock: WallClock): (r: P2pResult<U64>)
    ensures clock.BeforeEpoch? ==> r == Err(ClockBeforeEpoch)
    ensures r.Ok? ==> r.value * NanosPerMilli <= clock.nanos < (r.value + 1) * NanosPerMilli
    ensures clock.SinceEpoch? && r.Err? ==> r == Err(MillisOutOfRange) && clock.nanos >= U64Bound * NanosPerMilli
  {
    match clock
    case BeforeEpoch => Err(ClockBeforeEpoch)
    case SinceEpoch(nanos) =>
      var millis := nanos / NanosPerMilli;
      if millis < U64Bound then Ok(millis) else Err(MillisOutOfRange)
  }

  /** `now`: the server's time in milliseconds; with discovery disabled, the local clock's. */
  function Now(urlOverride: Option<string>, env: EnvVar, clock: WallClock,
               encode: (()) -> Result<Bytes, CodecError>, decode: Bytes -> Result<U64, CodecError>,
               post: Request -> HttpReply): (r: P2pResult<U64>)
    ensures DoApi(urlOverride, env, OpNow, (), encode, decode, post).result == Ok(None) ==> r == LocalMillis(clock)
    ensures DoApi(urlOverride, env, OpNow, (), encode, decode, post).result.Ok? &&
            DoApi(urlOverride, env, OpNow, (), encode, decode, post).result.value.Some? ==>
              r == Ok(DoApi(urlOverride, env, OpNow, (), encode, decode, post).result.value.value)
    ensures DoApi(urlOverride, env, OpNow, (), encode, decode, post).result.Err? ==>
              r == Err(DoApi(urlOverride, env, OpNow, (), encode, decode, post).result.error)
  {
    match DoApi(urlOverride, env, OpNow, (), encode, decode, post).result
    case Ok(Some(v)) => Ok(v)
    case Ok(None) => LocalMillis(clock)
    case Err(e) => Err(e)
  }

  /** `random`: a random sample of agent records in a space; with discovery disabled, the empty list. */
  function Random<A>(urlOverride: Option<string>, env: EnvVar, query: RandomQuery,
                     encode: RandomQuery -> Result<Bytes, CodecError>, decode: Bytes -> Result<seq<A>, CodecError>,
                     post: Request -> HttpReply): (r: P2pResult<seq<A>>)
    ensures DoApi(urlOverride, env, OpRandom, query, encode, decode, post).result == Ok(None) ==> r == Ok([])
    ensures DoApi(urlOverride, env, OpRandom, query, encode, decode, post).result.Ok? &&
            DoApi(urlOverride, env, OpRandom, query, encode, decode, post).result.value.Some? ==>
              r == Ok(DoApi(urlOverride, env, OpRandom, query, encode, decode, post).result.value.value)
    ensures DoApi(urlOverride, env, OpRandom, query, encode, decode, post).result.Err? ==>
              r == Err(DoApi(urlOverride, env, OpRandom, query, encode, decode, post).result.error)
  {
    match DoApi(urlOverride, env, OpRandom, query, encode, decode, post).result
    case Ok(Some(v)) => Ok(v)
    case Ok(None) => Ok([])
    case Err(e) => Err(e)
  }

  // ------------------------------------------------------------ properties across operations

  /**
   * With discovery disabled and the input encodable, nothing goes on the
   * network: `put` succeeds with no effect, `now` is the local clock and
   * `random` is the empty list.
   */
  lemma DisabledFallbacks<A, B>(env: EnvVar, info: A, clock: WallClock, query: RandomQuery,
                                encInfo: A -> Result<Bytes, CodecError>, decUnit: Bytes -> Result<(), CodecError>,
                                encUnit: (()) -> Result<Bytes, CodecError>, decNat: Bytes -> Result<U64, CodecError>,
                                encQuery: RandomQuery -> Result<Bytes, CodecError>,
                                decList: Bytes -> Result<seq<B>, CodecError>, post: Request -> HttpReply)
    requires env == Set("")
    requires encInfo(info).Ok? && encUnit(()).Ok? && encQuery(query).Ok?
    ensures DoApi(None, env, OpPut, info, encInfo, decUnit, post).sent == None
    ensures DoApi(None, env, OpNow, (), encUnit, decNat, post).sent == None
    ensures DoApi(None, env, OpRandom, query, encQuery, decList, post).sent == None
    ensures Put(None, env, info, encInfo, decUnit, post) == Ok(())
    ensures Now(None, env, clock, encUnit, decNat, post) == LocalMillis(clock)
    ensures Random(None, env, query, encQuery, decList, post) == Ok([])
  {
  }

  /** Encoding comes first: an encoder failure is reported even while discovery is disabled. */
  lemma EncodeErrorWhileDisabled<A>(env: EnvVar, info: A, encInfo: A -> Result<Bytes, CodecError>,
                                    decUnit: Bytes -> Result<(), CodecError>, post: Request -> HttpReply)
    requires env == Set("") && encInfo(info).Err?
    ensures Put(None, env, info, encInfo, decUnit, post) == Err(Codec(encInfo(info).error))
  {
  }

  /** Each operation tags its request with its own name in the `X-Op` header. */
  lemma OperationTags<A, B>(urlOverride: Option<string>, env: EnvVar, info: A, query: RandomQuery,
                            encInfo: A -> Result<Bytes, CodecError>, decUnit: Bytes -> Result<(), CodecError>,
                            encUnit: (()) -> Result<Bytes, CodecError>, decNat: Bytes -> Result<U64, CodecError>,
                            encQuery: RandomQuery -> Result<Bytes, CodecError>,
                            decList: Bytes -> Result<seq<B>, CodecError>, post: Request -> HttpReply)
    ensures DoApi(urlOverride, env, OpPut, info, encInfo, decUnit, post).sent.Some? ==>
              (OpHeader, "put") in DoApi(urlOverride, env, OpPut, info, encInfo, decUnit, post).sent.value.headers
    ensures DoApi(urlOverride, env, OpNow, (), encUnit, decNat, post).sent.Some? ==>
              (OpHeader, "now") in DoApi(urlOverride, env, OpNow, (), encUnit, decNat, post).sent.value.headers
    ensures DoApi(urlOverride, env, OpRandom, query, encQuery, decList, post).sent.Some? ==>
              (OpHeader, "random") in DoApi(urlOverride, env, OpRandom, query, encQuery, decList, post).sent.value.headers
  {
  }

  /**
   * With the variable unset and no override, `now` is not the local clock: its
   * request goes to the default server.
   */
  lemma UnsetUsesDefaultServer(clock: WallClock, encUnit: (()) -> Result<Bytes, CodecError>,
                               decNat: Bytes -> Result<U64, CodecError>, post: Request -> HttpReply)
    requires encUnit(()).Ok?
    ensures DoApi(None, Unset, OpNow, (), encUnit, decNat, post).sent ==
              Some(BuildRequest(BootstrapUrlDefault, OpNow, encUnit(()).value))
  {
  }

  /** An empty override is not "disabled": a request is still sent, to the empty URL. */
  lemma EmptyOverrideStillSends<I, O>(env: EnvVar, op: string, input: I,
                                      encode: I -> Result<Bytes, CodecError>, decode: Bytes -> Result<O, CodecError>,
                                      post: Request -> HttpReply)
    requires encode(input).Ok?
    ensures DoApi(Some(""), env, op, input, encode, decode, post).sent == Some(BuildRequest("", op, encode(input).value))
  {
  }
}
