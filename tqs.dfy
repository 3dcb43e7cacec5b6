/**
 * The protocol decision layer of the tqs message-queue client.
 *
 * A `Queue` names one queue at an endpoint and a `Message` is a leased
 * message bound back to its queue; both are immutable values, as the Go
 * value receivers are. Every client operation is modelled by two functions:
 *
 *   - `<Op>Request` builds the HTTP request the operation sends (method,
 *     URL, headers, query parameters, payload);
 *   - `<Op>` turns what the transport hands back into the operation's
 *     result in the client's error taxonomy.
 *
 * Go's `(value, error)` pair becomes `Result<T>` (every error return of the
 * tqs client carries the zero value, so nothing is lost) and a bare `error`
 * becomes `Outcome`, with `Pass` for nil.
 */
module Tqs {
  import opened Wire

  const NanosPerSecond := 1_000_000_000
  const QueuesPath := "/queues"
  const StatisticsPath := "/statistics"
  const LeasesPath := "/leases/"
  const AuthenticationHeader := "Authentication"
  const ContentTypeHeader := "Content-Type"
  const JsonContentType := "application/json"

  /** A timestamp the service sends; the client never inspects one, 0 stands for Go's zero time. */
  type Instant = int

  /** Request headers carry the service's token exactly when one is configured. */
  predicate Authenticated(header: Header, token: string) {
    && (AuthenticationHeader in header <==> token != "")
    && (AuthenticationHeader in header ==> header[AuthenticationHeader] == "token " + token)
  }

  /** The headers every request carries, with the JSON content type for requests that send a payload. */
  function Headers(token: string, json: bool): (h: Header)
    ensures Authenticated(h, token)
    ensures ContentTypeHeader in h <==> json
    ensures ContentTypeHeader in h ==> h[ContentTypeHeader] == JsonContentType
    ensures h.Keys <= {AuthenticationHeader, ContentTypeHeader}
  {
    var auth := if token != "" then map[AuthenticationHeader := "token " + token] else map[];
    if json then auth[ContentTypeHeader := JsonContentType] else auth
  }

  datatype MessageBody = MessageBody(body: string, bodyType: string)

  /** The JSON document a request sends. */
  datatype Payload =
    | NoPayload
    | CreateQueueRequest(name: string)
    | PutMessageRequest(messages: seq<MessageBody>)

  datatype Request = Request(verb: Method, url: string, header: Header, query: Query, payload: Payload)

  datatype QueueStatistics = QueueStatistics(visible: int, delayed: int, leased: int)

  const ZeroStatistics := QueueStatistics(0, 0, 0)

  /** The decoded body of a retrieval. The decoder never sets a message's queue. */
  datatype GetMessagesResponse = GetMessagesResponse(messages: seq<Message>)

  /** Retrieval options; `wait` is a duration in nanoseconds. */
  datatype GetOptions = GetOptions(wait: int, delete: bool, retry: bool)

  datatype Error =
    | LeaseNotFound(message: Message)
    | QueueNotFound(queue: Queue)
    | QueueEmpty(queue: Queue)
    | QueueAlreadyExists(queue: Queue)
    | QueueHTTPError(queue: Queue, statusCode: int)
    | Opaque(cause: Cause)       // passed on from the transport or the decoder

  datatype Result<+T> = Ok(value: T) | Err(error: Error)

  datatype Outcome = Pass | Fail(error: Error)

  /** The query parameters a retrieval sets; with no options it sets none. */
  function GetQuery(options: Option<GetOptions>): (query: Query)
    ensures options.None? ==> query == map[]
    ensures query.Keys <= {"delete", "wait_time"}
    ensures "delete" in query <==> options.Some? && options.value.delete
    ensures "delete" in query ==> query["delete"] == "true"
    ensures "wait_time" in query <==> options.Some? && options.value.wait > 0
    ensures "wait_time" in query ==> query["wait_time"] == Decimal(options.value.wait / NanosPerSecond)
    ensures "wait_time" in query ==>
      var seconds := DecimalValue(query["wait_time"]);
      seconds * NanosPerSecond <= options.value.wait < (seconds + 1) * NanosPerSecond
  {
    match options
    case None => map[]
    case Some(o) =>
      var deleting: Query := if o.delete then map["delete" := "true"] else map[];
      if o.wait > 0 then
        // Go's int division truncates toward zero, which for a positive wait is Dafny's `/`.
        var seconds := o.wait / NanosPerSecond;
        DecimalRoundTrip(seconds);
        deleting["wait_time" := Decimal(seconds)]
      else
        deleting
  }

  const ZeroQueue := Queue("", "", "", "")

  /** The queue handle `NewQueue` returns. */
  function NewQueue(endpoint: string, name: string, token: string): (q: Queue)
    ensures q.endpoint == endpoint && q.name == name && q.token == token
    ensures q.Valid()
  {
    Queue(endpoint, name, endpoint + QueuesPath + "/" + name, token)
  }

  datatype Queue = Queue(endpoint: string, name: string, url: string, token: string)
  {
    /** The queue's resource URL is derived from its endpoint and name. A
        handle built by a caller as a literal need not satisfy this. */
    predicate Valid() {
      url == endpoint + QueuesPath + "/" + name
    }

    function StatisticsRequest(): (r: Request)
      ensures r.verb == GET && r.url == url + StatisticsPath
      ensures Authenticated(r.header, token) && ContentTypeHeader !in r.header
      ensures r.query == map[] && r.payload == NoPayload
    {
      Request(GET, url + StatisticsPath, Headers(token, false), map[], NoPayload)
    }

    /** The statistics of the queue, from the response to `StatisticsRequest()`.
        A body that cannot be read gives the zero statistics and no error. */
    function Statistics(ex: Exchange<QueueStatistics>): (r: Result<QueueStatistics>)
      ensures r == Err(QueueNotFound(this)) <==> ex.Response? && ex.status == 404
      ensures r.Ok? <==> ex.Response? && ex.status != 404 && !ex.body.Malformed?
      ensures r.Ok? && ex.body.Parsed? ==> r.value == ex.body.value
      ensures r.Ok? && ex.body.ReadFailed? ==> r.value == ZeroStatistics
      ensures ex.NoResponse? ==> r == Err(Opaque(ex.cause))
      ensures ex.Response? && ex.status != 404 && ex.body.Malformed? ==> r == Err(Opaque(ex.body.cause))
    {
      match ex
      case NoResponse(cause) => Err(Opaque(cause))
      case Response(status, body) =>
        if status == 404 then Err(QueueNotFound(this))
        else
          match body
          case ReadFailed => Ok(ZeroStatistics)
          case Malformed(cause) => Err(Opaque(cause))
          case Parsed(statistics) => Ok(statistics)
    }

    /** Whether the queue exists, judged from the same exchange as `Statistics`. */
    function Exists(ex: Exchange<QueueStatistics>): (r: Result<bool>)
      ensures r == Ok(true) <==> Statistics(ex).Ok?
      ensures r == Ok(false) <==> Statistics(ex).Err? && Statistics(ex).error.QueueNotFound?
      ensures r.Err? <==> Statistics(ex).Err? && !Statistics(ex).error.QueueNotFound?
      ensures r.Err? ==> r.error == Statistics(ex).error
    {
      match Statistics(ex)
      case Err(e) => if e.QueueNotFound? then Ok(false) else Err(e)
      case Ok(_) => Ok(true)
    }

    /** Creation posts the queue's name to the endpoint's queue collection. */
    function CreateRequest(): (r: Request)
      ensures r.verb == POST && r.url == endpoint + QueuesPath
      ensures Authenticated(r.header, token) && ContentTypeHeader in r.header && r.header[ContentTypeHeader] == JsonContentType
      ensures r.query == map[] && r.payload == CreateQueueRequest(name)
    {
      Request(POST, endpoint + QueuesPath, Headers(token, true), map[], CreateQueueRequest(name))
    }

    function Create(reply: Reply): (r: Outcome)
      ensures r == Pass <==> reply == Replied(200)
      ensures r == Fail(QueueAlreadyExists(this)) <==> reply == Replied(409)
      ensures reply.Replied? && reply.status != 200 && reply.status != 409 ==>
        r == Fail(QueueHTTPError(this, reply.status))
      ensures r.Fail? && r.error.QueueHTTPError? ==>
        reply == Replied(r.error.statusCode) && r.error.statusCode != 200 && r.error.statusCode != 409
      ensures reply.NoReply? ==> r == Fail(Opaque(reply.cause))
    {
      match reply
      case NoReply(cause) => Fail(Opaque(cause))
      case Replied(status) =>
        if status == 409 then Fail(QueueAlreadyExists(this))
        else if status != 200 then Fail(QueueHTTPError(this, status))
        else Pass
    }

    function GetRequest(options: Option<GetOptions>): (r: Request)
      ensures r.verb == GET && r.url == url
      ensures Authenticated(r.header, token) && ContentTypeHeader !in r.header
      ensures r.query == GetQuery(options) && r.payload == NoPayload
    {
      Request(GET, url, Headers(token, false), GetQuery(options), NoPayload)
    }

    /** The message a retrieval leases, from the response to `GetRequest(_)`.
        Only a batch of exactly one message yields a message; a body that
        cannot be read yields the zero message and no error. */
    function Get(ex: Exchange<GetMessagesResponse>): (r: Result<Message>)
      ensures r == Err(QueueNotFound(this)) <==> ex.Response? && ex.status == 404
      ensures r == Err(QueueEmpty(this)) <==>
        ex.Response? && ex.status != 404 && ex.body.Parsed? && |ex.body.value.messages| != 1
      ensures r.Ok? <==>
        ex.Response? && ex.status != 404 &&
        (ex.body.ReadFailed? || (ex.body.Parsed? && |ex.body.value.messages| == 1))
      ensures r.Ok? && ex.body.Parsed? ==> r.value == ex.body.value.messages[0].(queue := this)
      ensures r.Ok? && ex.body.ReadFailed? ==> r.value == ZeroMessage
      ensures r.Err? ==> r.error.QueueNotFound? || r.error.QueueEmpty? || r.error.Opaque?
      ensures ex.NoResponse? ==> r == Err(Opaque(ex.cause))
      ensures ex.Response? && ex.status != 404 && ex.body.Malformed? ==> r == Err(Opaque(ex.body.cause))
    {
      match ex
      case NoResponse(cause) => Err(Opaque(cause))
      case Response(status, body) =>
        if status == 404 then Err(QueueNotFound(this))
        else
          match body
          case ReadFailed => Ok(ZeroMessage)
          case Malformed(cause) => Err(Opaque(cause))
          case Parsed(response) =>
            if |response.messages| == 1 then Ok(response.messages[0].(queue := this))
            else Err(QueueEmpty(this))
    }

    /** A retrieval whose message body text is then decoded by `decode`. */
    function GetValue<V>(ex: Exchange<GetMessagesResponse>, decode: string -> Decoding<V>): (r: Result<V>)
      ensures Get(ex).Err? ==> r == Err(Get(ex).error)
      ensures r.Ok? ==> Get(ex).Ok? && decode(Get(ex).value.bodyText) == Decoded(r.value)
      ensures Get(ex).Ok? && decode(Get(ex).value.bodyText).Decoded? ==>
        r == Ok(decode(Get(ex).value.bodyText).value)
      ensures Get(ex).Ok? && decode(Get(ex).value.bodyText).Undecodable? ==>
        r == Err(Opaque(decode(Get(ex).value.bodyText).cause))
      ensures r.Err? && !r.error.Opaque? ==> Get(ex) == Err(r.error)
    {
      match Get(ex)
      case Err(e) => Err(e)
      case Ok(message) =>
        match decode(message.bodyText)
        case Decoded(v) => Ok(v)
        case Undecodable(cause) => Err(Opaque(cause))
    }

    /** Enqueuing posts a batch holding exactly one message to the queue's URL. */
    function PutRequest(bodyText: string, bodyType: string): (r: Request)
      ensures r.verb == POST && r.url == url
      ensures Authenticated(r.header, token) && ContentTypeHeader in r.header && r.header[ContentTypeHeader] == JsonContentType
      ensures r.query == map[]
      ensures r.payload.PutMessageRequest? && |r.payload.messages| == 1
      ensures r.payload.messages[0].body == bodyText && r.payload.messages[0].bodyType == bodyType
    {
      Request(POST, url, Headers(token, true), map[], PutMessageRequest([MessageBody(bodyText, bodyType)]))
    }

    function Put(reply: Reply): (r: Outcome)
      ensures r == Pass <==> reply == Replied(200)
      ensures r == Fail(QueueNotFound(this)) <==> reply == Replied(404)
      ensures reply.Replied? && reply.status != 200 && reply.status != 404 ==>
        r == Fail(QueueHTTPError(this, reply.status))
      ensures r.Fail? && r.error.QueueHTTPError? ==>
        reply == Replied(r.error.statusCode) && r.error.statusCode != 200 && r.error.statusCode != 404
      ensures reply.NoReply? ==> r == Fail(Opaque(reply.cause))
    {
      match reply
      case NoReply(cause) => Fail(Opaque(cause))
      case Replied(status) =>
        if status == 404 then Fail(QueueNotFound(this))
        else if status != 200 then Fail(QueueHTTPError(this, status))
        else Pass
    }
  }

  const ZeroMessage := Message(ZeroQueue, "", "", 0, 0, 0, "", 0, 0)

  datatype Message = Message(
    queue: Queue,
    bodyText: string,
    bodyType: string,
    createDate: Instant,
    visibleDate: Instant,
    expireDate: Instant,
    leaseUUID: string,
    leaseTimeout: int,
    leaseDate: Instant)
  {
    /** Releasing a lease deletes it under the URL of the message's queue. */
    function DeleteRequest(): (r: Request)
      ensures r.verb == DELETE && r.url == queue.url + LeasesPath + leaseUUID
      ensures Authenticated(r.header, queue.token) && ContentTypeHeader !in r.header
      ensures r.query == map[] && r.payload == NoPayload
    {
      Request(DELETE, queue.url + LeasesPath + leaseUUID, Headers(queue.token, false), map[], NoPayload)
    }

    /** Every status but 404 counts as a successful release. */
    function Delete(reply: Reply): (r: Outcome)
      ensures r == Fail(LeaseNotFound(this)) <==> reply == Replied(404)
      ensures r == Pass <==> reply.Replied? && reply.status != 404
      ensures reply.NoReply? ==> r == Fail(Opaque(reply.cause))
    {
      match reply
      case NoReply(cause) => Fail(Opaque(cause))
      case Replied(status) => if status == 404 then Fail(LeaseNotFound(this)) else Pass
    }
  }
}
