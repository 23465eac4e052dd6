/** The Express handlers of the feed API (src/app/api/routes/feeds/feeds.route.ts):
    each validates its path, query and body in a fixed order, calls its
    controller, and maps the controller's error message to an HTTP status
    by looking for phrases in it. A controller call is a function from the
    validated input to its outcome (a value or the thrown message), so
    "not called" reads as "the reply does not depend on the call". */
module FeedsRoute {
  import opened Common
  import opened FeedConstants
  import opened FeedSchemas

  /** The `error` field of an error reply. */
  datatype ErrorText =
    | Said(message: string)     // the controller's message, or a fixed text
    | ValidationError           // VALIDATION_ERROR(<Joi's message>)
    | NoUserPayload             // NO_USER_PAYLOAD
    | DefaultInternalError      // DEFAULT_INTERNAL_ERROR
    | Unhandled                 // no JSON body: Express's own error handler answered a throw

  datatype Reply<T> = Success(status: int, value: T) | Failure(status: int, error: ErrorText)

  const LIMIT_TEXT: string := "Limit must be a number between 1 and 1000"
  const HOURS_TEXT: string := "Hours must be a number between 1 and 720 (30 days)"
  const VALUE_REQUIRED_TEXT: string := "Value is required"

  /** `err.message || DEFAULT_INTERNAL_ERROR`. */
  function MessageOrDefault(msg: string): (e: ErrorText)
    ensures e == DefaultInternalError <==> msg == ""
    ensures msg != "" ==> e == Said(msg)
  {
    if msg == "" then DefaultInternalError else Said(msg)
  }

  /** The fallback of every handler: 500 with the message, or the default text. */
  function ServerError<T>(msg: string): (r: Reply<T>)
    ensures r.Failure? && r.status == 500 && r.error == MessageOrDefault(msg)
  {
    Failure(500, MessageOrDefault(msg))
  }

  // ===== Error-message to status mappings =====

  /** GET feed, GET data, GET chart, PUT and DELETE data point: 'not found' → 404. */
  function NotFoundReply<T>(msg: string): (r: Reply<T>)
    ensures r.Failure?
    ensures r.status == 404 <==> Contains(msg, "not found")
    ensures r.status == 404 ==> r.error == Said(msg)
    ensures r.status != 404 ==> r == ServerError(msg)
  {
    if Contains(msg, "not found") then Failure(404, Said(msg)) else ServerError(msg)
  }

  /** PUT and DELETE feed: 'not found' → 404, then 'Unauthorized' → 401. */
  function FeedChangeReply<T>(msg: string): (r: Reply<T>)
    ensures r.Failure?
    ensures r.status == 404 <==> Contains(msg, "not found")
    ensures r.status == 401 <==> !Contains(msg, "not found") && Contains(msg, "Unauthorized")
    ensures r.status == 500 <==> !Contains(msg, "not found") && !Contains(msg, "Unauthorized")
    ensures r.status != 500 ==> r.error == Said(msg)
    ensures r.status == 500 ==> r == ServerError(msg)
  {
    if Contains(msg, "not found") then Failure(404, Said(msg))
    else if Contains(msg, "Unauthorized") then Failure(401, Said(msg))
    else ServerError(msg)
  }

  /** POST feed: 'already exists' → 409, then 'Unauthorized' → 401. */
  function CreateFeedReply<T>(msg: string): (r: Reply<T>)
    ensures r.Failure?
    ensures r.status == 409 <==> Contains(msg, "already exists")
    ensures r.status == 401 <==> !Contains(msg, "already exists") && Contains(msg, "Unauthorized")
    ensures r.status == 500 <==> !Contains(msg, "already exists") && !Contains(msg, "Unauthorized")
    ensures r.status != 500 ==> r.error == Said(msg)
    ensures r.status == 500 ==> r == ServerError(msg)
  {
    if Contains(msg, "already exists") then Failure(409, Said(msg))
    else if Contains(msg, "Unauthorized") then Failure(401, Said(msg))
    else ServerError(msg)
  }

  /** POST data: 'not found' → 404, 'Unauthorized' → 401, 'rate limit' → 429, in that order. */
  function CreateDataReply<T>(msg: string): (r: Reply<T>)
    ensures r.Failure?
    ensures r.status == 404 <==> Contains(msg, "not found")
    ensures r.status == 401 <==> !Contains(msg, "not found") && Contains(msg, "Unauthorized")
    ensures r.status == 429 <==> !Contains(msg, "not found") && !Contains(msg, "Unauthorized") && Contains(msg, "rate limit")
    ensures r.status == 500 <==> !Contains(msg, "not found") && !Contains(msg, "Unauthorized") && !Contains(msg, "rate limit")
    ensures r.status != 500 ==> r.error == Said(msg)
    ensures r.status == 500 ==> r == ServerError(msg)
  {
    if Contains(msg, "not found") then Failure(404, Said(msg))
    else if Contains(msg, "Unauthorized") then Failure(401, Said(msg))
    else if Contains(msg, "rate limit") then Failure(429, Said(msg))
    else ServerError(msg)
  }

  /** GET last: 'not found' or 'No data available' → 404. */
  function LastDataReply<T>(msg: string): (r: Reply<T>)
    ensures r.Failure?
    ensures r.status == 404 <==> Contains(msg, "not found") || Contains(msg, "No data available")
    ensures r.status == 404 ==> r.error == Said(msg)
    ensures r.status != 404 ==> r == ServerError(msg)
  {
    if Contains(msg, "not found") || Contains(msg, "No data available") then Failure(404, Said(msg))
    else ServerError(msg)
  }

  // ===== Handlers without a path key =====

  /** GET /connection and POST /initialize: any failure is a bare 500 with the default text. */
  function FixedErrorRoute<T>(outcome: Result<T, string>): (r: Reply<T>)
    ensures outcome.Ok? ==> r == Success(200, outcome.value)
    ensures outcome.Err? ==> r == Failure(500, DefaultInternalError)
  {
    match outcome
    case Ok(v) => Success(200, v)
    case Err(_) => Failure(500, DefaultInternalError)
  }

  /** GET / and GET /data/last-all: 200, or 500 with the message. */
  function ListRoute<T>(outcome: Result<T, string>): (r: Reply<T>)
    ensures outcome.Ok? ==> r == Success(200, outcome.value)
    ensures outcome.Err? ==> r == ServerError(outcome.error)
  {
    match outcome
    case Ok(v) => Success(200, v)
    case Err(m) => ServerError(m)
  }

  /** POST /: a missing body, then the strict feed schema, then the call. */
  function CreateFeedRoute<T>(body: Option<RawFeedPayload>, call: FeedPayload -> Result<T, string>): (r: Reply<T>)
    ensures body.None? ==> r == Failure(400, NoUserPayload)
    ensures body.Some? && !FeedSchemaValid(body.value, false) ==> r == Failure(400, ValidationError)
    ensures body.Some? && FeedSchemaValid(body.value, false) && call(ToFeedPayload(body.value)).Ok? ==>
              r == Success(201, call(ToFeedPayload(body.value)).value)
    ensures body.Some? && FeedSchemaValid(body.value, false) && call(ToFeedPayload(body.value)).Err? ==>
              r == CreateFeedReply(call(ToFeedPayload(body.value)).error)
  {
    match body
    case None => Failure(400, NoUserPayload)
    case Some(p) =>
      if !FeedSchemaValid(p, false) then Failure(400, ValidationError)
      else
        StrictImpliesLenient(p);
        match call(ToFeedPayload(p))
        case Ok(v) => Success(201, v)
        case Err(m) => CreateFeedReply(m)
  }

  // ===== Handlers with a path key =====

  /** GET /:feedKey. */
  function GetFeedRoute<T>(feedKey: string, call: string -> Result<T, string>): (r: Reply<T>)
    ensures !FeedKeySchemaValid(feedKey) ==> r == Failure(400, ValidationError)
    ensures FeedKeySchemaValid(feedKey) && call(feedKey).Ok? ==> r == Success(200, call(feedKey).value)
    ensures FeedKeySchemaValid(feedKey) && call(feedKey).Err? ==> r == NotFoundReply(call(feedKey).error)
  {
    if !FeedKeySchemaValid(feedKey) then Failure(400, ValidationError)
    else match call(feedKey)
      case Ok(v) => Success(200, v)
      case Err(m) => NotFoundReply(m)
  }

  /** PUT /:feedKey: the key first, then a missing body, then the lenient schema. */
  function UpdateFeedRoute<T>(feedKey: string, body: Option<RawFeedPayload>,
                              call: (string, FeedPayload) -> Result<T, string>): (r: Reply<T>)
    ensures !FeedKeySchemaValid(feedKey) ==> r == Failure(400, ValidationError)
    ensures FeedKeySchemaValid(feedKey) && body.None? ==> r == Failure(400, NoUserPayload)
    ensures FeedKeySchemaValid(feedKey) && body.Some? && !FeedSchemaValid(body.value, true) ==> r == Failure(400, ValidationError)
    ensures FeedKeySchemaValid(feedKey) && body.Some? && FeedSchemaValid(body.value, true) ==>
              var outcome := call(feedKey, ToFeedPayload(body.value));
              r == if outcome.Ok? then Success(200, outcome.value) else FeedChangeReply(outcome.error)
  {
    if !FeedKeySchemaValid(feedKey) then Failure(400, ValidationError)
    else match body
      case None => Failure(400, NoUserPayload)
      case Some(p) =>
        if !FeedSchemaValid(p, true) then Failure(400, ValidationError)
        else match call(feedKey, ToFeedPayload(p))
          case Ok(v) => Success(200, v)
          case Err(m) => FeedChangeReply(m)
  }

  /** DELETE /:feedKey. */
  function DeleteFeedRoute<T>(feedKey: string, call: string -> Result<T, string>): (r: Reply<T>)
    ensures !FeedKeySchemaValid(feedKey) ==> r == Failure(400, ValidationError)
    ensures FeedKeySchemaValid(feedKey) && call(feedKey).Ok? ==> r == Success(200, call(feedKey).value)
    ensures FeedKeySchemaValid(feedKey) && call(feedKey).Err? ==> r == FeedChangeReply(call(feedKey).error)
  {
    if !FeedKeySchemaValid(feedKey) then Failure(400, ValidationError)
    else match call(feedKey)
      case Ok(v) => Success(200, v)
      case Err(m) => FeedChangeReply(m)
  }

  /** GET /:feedKey/data/last. */
  function LastDataRoute<T>(feedKey: string, call: string -> Result<T, string>): (r: Reply<T>)
    ensures !FeedKeySchemaValid(feedKey) ==> r == Failure(400, ValidationError)
    ensures FeedKeySchemaValid(feedKey) && call(feedKey).Ok? ==> r == Success(200, call(feedKey).value)
    ensures FeedKeySchemaValid(feedKey) && call(feedKey).Err? ==> r == LastDataReply(call(feedKey).error)
  {
    if !FeedKeySchemaValid(feedKey) then Failure(400, ValidationError)
    else match call(feedKey)
      case Ok(v) => Success(200, v)
      case Err(m) => LastDataReply(m)
  }

  /** A numeric query parameter: the default when absent or empty, else
      `parseInt(value, 10)` (None standing for NaN), kept only within bounds. */
  function BoundedQuery(raw: Option<string>, parseInt: string -> Option<int>, default: int, lo: int, hi: int): (n: Option<int>)
    ensures !Truthy(raw) ==> n == (if lo <= default <= hi then Some(default) else None)
    ensures Truthy(raw) ==> (n.Some? <==> parseInt(raw.value).Some? && lo <= parseInt(raw.value).value <= hi)
    ensures n.Some? ==> lo <= n.value <= hi
    ensures Truthy(raw) && n.Some? ==> n == parseInt(raw.value)
  {
    var parsed := if Truthy(raw) then parseInt(raw.value) else Some(default);
    if parsed.None? || parsed.value < lo || parsed.value > hi then None else parsed
  }

  /** The `limit` of GET data: 100 by default, at least 1, at most 1000. */
  function DataLimit(limit: Option<string>, parseInt: string -> Option<int>): (n: Option<int>)
    ensures !Truthy(limit) ==> n == Some(100)
    ensures n.Some? ==> 1 <= n.value <= 1000
    ensures Truthy(limit) ==> (n.Some? <==> parseInt(limit.value).Some? && 1 <= parseInt(limit.value).value <= 1000)
  {
    BoundedQuery(limit, parseInt, 100, 1, 1000)
  }

  /** The `hours` of GET chart: 24 by default, at least 1, at most 720. */
  function ChartHours(hours: Option<string>, parseInt: string -> Option<int>): (n: Option<int>)
    ensures !Truthy(hours) ==> n == Some(24)
    ensures n.Some? ==> 1 <= n.value <= 720
    ensures Truthy(hours) ==> (n.Some? <==> parseInt(hours.value).Some? && 1 <= parseInt(hours.value).value <= 720)
  {
    BoundedQuery(hours, parseInt, 24, 1, 720)
  }

  /** What GET data hands to its controller. */
  datatype DataQuery = DataQuery(feedKey: string, limit: int, startTime: Option<string>, endTime: Option<string>)

  /** GET /:feedKey/data: the key, then the limit, then the call. */
  function FeedDataRoute<T>(feedKey: string, limit: Option<string>, startTime: Option<string>, endTime: Option<string>,
                            parseInt: string -> Option<int>, call: DataQuery -> Result<T, string>): (r: Reply<T>)
    ensures !FeedKeySchemaValid(feedKey) ==> r == Failure(400, ValidationError)
    ensures FeedKeySchemaValid(feedKey) && DataLimit(limit, parseInt).None? ==> r == Failure(400, Said(LIMIT_TEXT))
    ensures FeedKeySchemaValid(feedKey) && DataLimit(limit, parseInt).Some? ==>
              var outcome := call(DataQuery(feedKey, DataLimit(limit, parseInt).value, startTime, endTime));
              r == if outcome.Ok? then Success(200, outcome.value) else NotFoundReply(outcome.error)
  {
    if !FeedKeySchemaValid(feedKey) then Failure(400, ValidationError)
    else match DataLimit(limit, parseInt)
      case None => Failure(400, Said(LIMIT_TEXT))
      case Some(n) =>
        match call(DataQuery(feedKey, n, startTime, endTime))
        case Ok(v) => Success(200, v)
        case Err(m) => NotFoundReply(m)
  }

  /** GET /:feedKey/chart: the key, then the hours, then the call. */
  function ChartRoute<T>(feedKey: string, hours: Option<string>, parseInt: string -> Option<int>,
                         call: (string, int) -> Result<T, string>): (r: Reply<T>)
    ensures !FeedKeySchemaValid(feedKey) ==> r == Failure(400, ValidationError)
    ensures FeedKeySchemaValid(feedKey) && ChartHours(hours, parseInt).None? ==> r == Failure(400, Said(HOURS_TEXT))
    ensures FeedKeySchemaValid(feedKey) && ChartHours(hours, parseInt).Some? ==>
              var outcome := call(feedKey, ChartHours(hours, parseInt).value);
              r == if outcome.Ok? then Success(200, outcome.value) else NotFoundReply(outcome.error)
  {
    if !FeedKeySchemaValid(feedKey) then Failure(400, ValidationError)
    else match ChartHours(hours, parseInt)
      case None => Failure(400, Said(HOURS_TEXT))
      case Some(n) =>
        match call(feedKey, n)
        case Ok(v) => Success(200, v)
        case Err(m) => NotFoundReply(m)
  }

  /** POST /:feedKey/data: the key, then a missing body, then the data schema. */
  function CreateDataRoute<T>(feedKey: string, body: Option<RawDataPayload>,
                              call: (string, RawDataPayload) -> Result<T, string>): (r: Reply<T>)
    ensures !FeedKeySchemaValid(feedKey) ==> r == Failure(400, ValidationError)
    ensures FeedKeySchemaValid(feedKey) && body.None? ==> r == Failure(400, NoUserPayload)
    ensures FeedKeySchemaValid(feedKey) && body.Some? && !CreateDataSchemaValid(body.value) ==> r == Failure(400, ValidationError)
    ensures FeedKeySchemaValid(feedKey) && body.Some? && CreateDataSchemaValid(body.value) ==>
              var outcome := call(feedKey, body.value);
              r == if outcome.Ok? then Success(201, outcome.value) else CreateDataReply(outcome.error)
  {
    if !FeedKeySchemaValid(feedKey) then Failure(400, ValidationError)
    else match body
      case None => Failure(400, NoUserPayload)
      case Some(p) =>
        if !CreateDataSchemaValid(p) then Failure(400, ValidationError)
        else match call(feedKey, p)
          case Ok(v) => Success(201, v)
          case Err(m) => CreateDataReply(m)
  }

  /** The checks of PUT /:feedKey/data/:dataId once `value` has been read:
      the key, then the value, then the controller. */
  function CheckedUpdateDataPoint<T>(feedKey: string, dataId: string, value: Json,
                                     call: (string, string, Json) -> Result<T, string>): (r: Reply<T>)
    ensures !FeedKeySchemaValid(feedKey) ==> r == Failure(400, ValidationError)
    ensures FeedKeySchemaValid(feedKey) && (value.Missing? || value.Null?) ==> r == Failure(400, Said(VALUE_REQUIRED_TEXT))
    ensures FeedKeySchemaValid(feedKey) && !value.Missing? && !value.Null? ==>
              var outcome := call(feedKey, dataId, value);
              r == if outcome.Ok? then Success(200, outcome.value) else NotFoundReply(outcome.error)
  {
    if !FeedKeySchemaValid(feedKey) then Failure(400, ValidationError)
    else if value.Missing? || value.Null? then Failure(400, Said(VALUE_REQUIRED_TEXT))
    else match call(feedKey, dataId, value)
      case Ok(v) => Success(200, v)
      case Err(m) => NotFoundReply(m)
  }

  /** PUT /:feedKey/data/:dataId as written. `body` is None when the request
      carries no parsed body (`req.body` is undefined), otherwise the body's
      `value` property. Destructuring an undefined body throws before any
      check and outside the try block, so the rejected handler reaches
      Express's default error handler: 500, whatever the key. */
  function UpdateDataPointRoute<T>(feedKey: string, dataId: string, body: Option<Json>,
                                   call: (string, string, Json) -> Result<T, string>): (r: Reply<T>)
    ensures body.None? ==> r == Failure(500, Unhandled)
    ensures body.Some? && !FeedKeySchemaValid(feedKey) ==> r == Failure(400, ValidationError)
    ensures body.Some? && FeedKeySchemaValid(feedKey) && (body.value.Missing? || body.value.Null?) ==>
              r == Failure(400, Said(VALUE_REQUIRED_TEXT))
    ensures body.Some? && FeedKeySchemaValid(feedKey) && !body.value.Missing? && !body.value.Null? ==>
              var outcome := call(feedKey, dataId, body.value);
              r == if outcome.Ok? then Success(200, outcome.value) else NotFoundReply(outcome.error)
  {
    match body
    case None => Failure(500, Unhandled)
    case Some(value) => CheckedUpdateDataPoint(feedKey, dataId, value, call)
  }

  /** PUT /:feedKey/data/:dataId with the body guarded as its sibling
      handlers guard theirs: a missing body has no value, so the key check
      and then the value check answer it. */
  function GuardedUpdateDataPointRoute<T>(feedKey: string, dataId: string, body: Option<Json>,
                                          call: (string, string, Json) -> Result<T, string>): (r: Reply<T>)
    ensures !FeedKeySchemaValid(feedKey) ==> r == Failure(400, ValidationError)
    ensures FeedKeySchemaValid(feedKey) && body.None? ==> r == Failure(400, Said(VALUE_REQUIRED_TEXT))
    ensures body.Some? ==> r == UpdateDataPointRoute(feedKey, dataId, body, call)
    ensures r.Failure? && r.status == 500 ==> body.Some? && call(feedKey, dataId, body.value).Err?
  {
    CheckedUpdateDataPoint(feedKey, dataId, if body.Some? then body.value else Missing, call)
  }

  /** As written, a body-less PUT with a key outside the nine feed keys is
      answered 500 where every other keyed handler answers 400; the guarded
      handler answers 400. */
  lemma BodylessUpdateAnswers500<T>(feedKey: string, dataId: string, call: (string, string, Json) -> Result<T, string>)
    requires !(feedKey in FeedKeyValues())
    ensures UpdateDataPointRoute(feedKey, dataId, None, call) == Failure(500, Unhandled)
    ensures GuardedUpdateDataPointRoute(feedKey, dataId, None, call) == Failure(400, ValidationError)
  {
    FeedKeySchemaAcceptsExactlyFeedKeys(feedKey);
  }

  /** DELETE /:feedKey/data/:dataId. */
  function DeleteDataPointRoute<T>(feedKey: string, dataId: string, call: (string, string) -> Result<T, string>): (r: Reply<T>)
    ensures !FeedKeySchemaValid(feedKey) ==> r == Failure(400, ValidationError)
    ensures FeedKeySchemaValid(feedKey) ==>
              var outcome := call(feedKey, dataId);
              r == if outcome.Ok? then Success(200, outcome.value) else NotFoundReply(outcome.error)
  {
    if !FeedKeySchemaValid(feedKey) then Failure(400, ValidationError)
    else match call(feedKey, dataId)
      case Ok(v) => Success(200, v)
      case Err(m) => NotFoundReply(m)
  }

  // ===== Properties across handlers =====

  /** A key that is not one of the nine feed keys is answered with 400 by
      every keyed handler, whatever its controller would have done; the PUT
      of a data point only when the request has a body (see
      BodylessUpdateAnswers500), its guarded form always. */
  lemma InvalidKeyNeverReachesController<T>(feedKey: string, body: Option<RawFeedPayload>, data: Option<RawDataPayload>,
                                            limit: Option<string>, startTime: Option<string>, endTime: Option<string>,
                                            hours: Option<string>, value: Option<Json>, dataId: string,
                                            parseInt: string -> Option<int>,
                                            byKey: string -> Result<T, string>, update: (string, FeedPayload) -> Result<T, string>,
                                            query: DataQuery -> Result<T, string>, chart: (string, int) -> Result<T, string>,
                                            create: (string, RawDataPayload) -> Result<T, string>,
                                            edit: (string, string, Json) -> Result<T, string>,
                                            remove: (string, string) -> Result<T, string>)
    requires !(feedKey in FeedKeyValues())
    ensures GetFeedRoute(feedKey, byKey) == Failure(400, ValidationError)
    ensures UpdateFeedRoute(feedKey, body, update) == Failure(400, ValidationError)
    ensures DeleteFeedRoute(feedKey, byKey) == Failure(400, ValidationError)
    ensures LastDataRoute(feedKey, byKey) == Failure(400, ValidationError)
    ensures FeedDataRoute(feedKey, limit, startTime, endTime, parseInt, query) == Failure(400, ValidationError)
    ensures ChartRoute(feedKey, hours, parseInt, chart) == Failure(400, ValidationError)
    ensures CreateDataRoute(feedKey, data, create) == Failure(400, ValidationError)
    ensures value.Some? ==> UpdateDataPointRoute(feedKey, dataId, value, edit) == Failure(400, ValidationError)
    ensures GuardedUpdateDataPointRoute(feedKey, dataId, value, edit) == Failure(400, ValidationError)
    ensures DeleteDataPointRoute(feedKey, dataId, remove) == Failure(400, ValidationError)
  {
    FeedKeySchemaAcceptsExactlyFeedKeys(feedKey);
  }

  /** A message that is both "not found" and "Unauthorized" is a 404 for
      the feed-changing handlers and for POST data, while POST feed
      ignores 'not found' altogether. */
  lemma StatusPrecedence<T>(msg: string)
    requires Contains(msg, "not found") && Contains(msg, "Unauthorized") && !Contains(msg, "already exists")
    ensures FeedChangeReply<T>(msg).status == 404
    ensures CreateDataReply<T>(msg).status == 404
    ensures CreateFeedReply<T>(msg).status == 401
  {
  }

  /** Only POST feed can answer 409, only POST data 429, and only GET last
      turns 'No data available' into 404. */
  lemma DistinctiveStatuses<T>(msg: string)
    ensures NotFoundReply<T>(msg).status != 409 && FeedChangeReply<T>(msg).status != 409 && CreateDataReply<T>(msg).status != 409
    ensures NotFoundReply<T>(msg).status != 429 && FeedChangeReply<T>(msg).status != 429 && CreateFeedReply<T>(msg).status != 429
    ensures Contains(msg, "No data available") && !Contains(msg, "not found") ==>
              LastDataReply<T>(msg).status == 404 && NotFoundReply<T>(msg).status == 500
  {
  }
}
