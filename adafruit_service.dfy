/** The gateway to the telemetry service
    (src/app/api/services/adafruit/adafruit.service.ts): the response
    interceptor, the request bodies it builds, the chart-data pipeline and
    the two fan-out operations. Each HTTP call is a parameter: its outcome,
    or a function from the request to its outcome. */
module AdafruitService {
  import opened Common
  import opened Errors
  import opened FeedConstants
  import opened FeedSchemas
  import opened FeedModels

  // ===== Response interceptor =====

  /** The HTTP response attached to a failed call: its status and the
      `error` field of its body, if any. */
  datatype HttpResponse = HttpResponse(status: int, bodyError: Option<string>)

  /** A failed call as the HTTP client reports it: with or without a
      response, the transport's own message, and the request URL. */
  datatype HttpFailure = HttpFailure(response: Option<HttpResponse>, message: string, url: Option<string>)

  /** What the service's callers catch: an Error with a message, and a
      `response` only when the HTTP client attached one. */
  datatype Caught = Caught(message: string, responseStatus: Option<int>)

  /** The interceptor's classification of a failed call. */
  function Intercept(f: HttpFailure): (e: DomainError)
    ensures e == Unauthorized <==> f.response.Some? && (f.response.value.status == 401 || f.response.value.status == 403)
    ensures e == RateLimit <==> f.response.Some? && f.response.value.status == 429
    ensures e.FeedNotFound? <==> f.response.Some? && f.response.value.status == 404
    ensures e.FeedNotFound? ==> e.subject == (if f.url.Some? then f.url.value else "")
    ensures e.AdafruitIoError? || e == Unauthorized || e == RateLimit || e.FeedNotFound?
    ensures f.response.None? ==> e == AdafruitIoError(f.message)
    ensures f.response.Some? && e.AdafruitIoError? ==>
              e.detail == if Truthy(f.response.value.bodyError) then f.response.value.bodyError.value else f.message
  {
    match f.response
    case None => AdafruitIoError(f.message)
    case Some(resp) =>
      var message := if Truthy(resp.bodyError) then resp.bodyError.value else f.message;
      if resp.status == 401 || resp.status == 403 then Unauthorized
      else if resp.status == 429 then RateLimit
      else if resp.status == 404 then FeedNotFound(if f.url.Some? then f.url.value else "")
      else AdafruitIoError(message)
  }

  /** A call made through the intercepted client: a failure reaches the
      caller as a fresh Error that carries no HTTP response. */
  function Through<T>(t: ErrorTexts, r: Result<T, HttpFailure>): (c: Result<T, Caught>)
    ensures r.Ok? <==> c.Ok?
    ensures r.Ok? ==> c.value == r.value
    ensures r.Err? ==> c.error == Caught(Message(t, Intercept(r.error)), None)
  {
    match r
    case Ok(v) => Ok(v)
    case Err(f) => Err(Caught(Message(t, Intercept(f)), None))
  }

  // ===== Feed bodies =====

  /** The JSON body POSTed to create a feed. */
  datatype CreateBody = CreateBody(
    name: Option<string>, key: string, description: string, unitType: Option<string>,
    visibility: string, history: bool, enabled: bool)

  /** createFeed's body: the caller's description or '', the caller's unit
      or null, always private with history, enabled unless explicitly false. */
  function CreateBodyFor(p: FeedPayload): (b: CreateBody)
    ensures b.name == p.name && b.key == p.key
    ensures Truthy(p.description) ==> b.description == p.description.value
    ensures !Truthy(p.description) ==> b.description == ""
    ensures Truthy(p.unit) <==> b.unitType.Some?
    ensures b.unitType.Some? ==> b.unitType == p.unit
    ensures b.visibility == "private" && b.history
    ensures !b.enabled <==> p.enabled == Some(false)
  {
    CreateBody(p.name, p.key,
               if Truthy(p.description) then p.description.value else "",
               if Truthy(p.unit) then p.unit else None,
               "private", true, p.enabled != Some(false))
  }

  /** Joi's `.default(true)` and createFeed's `enabled !== false` agree:
      a validated body without `enabled` creates an enabled feed. */
  lemma CreateEnabledMatchesSchemaDefault(raw: RawFeedPayload)
    requires FeedSchemaValid(raw, false)
    ensures CreateBodyFor(ToFeedPayload(raw)).enabled == ValidatedEnabled(raw)
  {
  }

  /** A value of the update body. */
  datatype BodyValue = StrValue(s: string) | BoolValue(b: bool)

  /** updateFeed's body, filled field by field: `name` only when truthy,
      the other three whenever they are not undefined, nothing else. */
  method BuildUpdateBody(p: FeedPayload) returns (body: map<string, BodyValue>)
    ensures body.Keys <= {"name", "description", "unit_type", "enabled"}
    ensures "name" in body <==> Truthy(p.name)
    ensures "name" in body ==> body["name"] == StrValue(p.name.value)
    ensures "description" in body <==> p.description.Some?
    ensures "description" in body ==> body["description"] == StrValue(p.description.value)
    ensures "unit_type" in body <==> p.unit.Some?
    ensures "unit_type" in body ==> body["unit_type"] == StrValue(p.unit.value)
    ensures "enabled" in body <==> p.enabled.Some?
    ensures "enabled" in body ==> body["enabled"] == BoolValue(p.enabled.value)
  {
    body := map[];
    if Truthy(p.name) {
      body := body["name" := StrValue(p.name.value)];
    }
    if p.description.Some? {
      body := body["description" := StrValue(p.description.value)];
    }
    if p.unit.Some? {
      body := body["unit_type" := StrValue(p.unit.value)];
    }
    if p.enabled.Some? {
      body := body["enabled" := BoolValue(p.enabled.value)];
    }
  }

  // ===== Data queries =====

  /** A query parameter value. */
  datatype ParamValue = IntParam(i: int) | StrParam(s: string)

  /** getFeedData's query: `limit` always, the time bounds only when given. */
  method BuildDataParams(limit: int, startTime: Option<string>, endTime: Option<string>)
    returns (params: map<string, ParamValue>)
    ensures params.Keys <= {"limit", "start_time", "end_time"}
    ensures "limit" in params && params["limit"] == IntParam(limit)
    ensures "start_time" in params <==> Truthy(startTime)
    ensures "start_time" in params ==> params["start_time"] == StrParam(startTime.value)
    ensures "end_time" in params <==> Truthy(endTime)
    ensures "end_time" in params ==> params["end_time"] == StrParam(endTime.value)
  {
    params := map["limit" := IntParam(limit)];
    if Truthy(startTime) {
      params := params["start_time" := StrParam(startTime.value)];
    }
    if Truthy(endTime) {
      params := params["end_time" := StrParam(endTime.value)];
    }
  }

  /** getLastValue: a caught error whose response says 404 becomes `null`;
      every other error is re-thrown. */
  function GetLastValue(r: Result<Option<DataPoint>, Caught>): (v: Result<Option<DataPoint>, Caught>)
    ensures r.Ok? ==> v == r
    ensures r.Err? && r.error.responseStatus == Some(404) ==> v == Ok(None)
    ensures r.Err? && r.error.responseStatus != Some(404) ==> v == r
  {
    match r
    case Ok(d) => Ok(d)
    case Err(c) => if c.responseStatus == Some(404) then Ok(None) else Err(c)
  }

  /** Through the interceptor no error carries a response, so getLastValue
      never turns a failure into `null`: every failure is re-thrown,
      whatever its HTTP status. */
  lemma LastValueNeverNullOnFailure(t: ErrorTexts, r: Result<Option<DataPoint>, HttpFailure>)
    ensures GetLastValue(Through(t, r)) == Through(t, r)
    ensures r.Err? ==> GetLastValue(Through(t, r)).Err?
  {
  }

  // ===== Chart data =====

  const HOUR_MS: int := 3600000
  const CHART_LIMIT: int := 1000

  /** A request for a feed's raw data within [startTime, endTime] (ms). */
  datatype DataRequest = DataRequest(feedKey: string, limit: int, startTime: Option<int>, endTime: Option<int>)

  /** getChartData's request: the trailing `hours` up to now, at most 1000 points. */
  function ChartRequest(feedKey: string, hours: int, now: int): (q: DataRequest)
    ensures q.feedKey == feedKey && q.limit == CHART_LIMIT
    ensures q.startTime.Some? && q.endTime == Some(now)
    ensures now - q.startTime.value == hours * HOUR_MS
  {
    DataRequest(feedKey, CHART_LIMIT, Some(now - hours * HOUR_MS), Some(now))
  }

  /** A chart point: the raw timestamp and the parsed value (never NaN). */
  datatype ChartPoint = ChartPoint(timestamp: int, value: Number)

  function ToChartPoint(d: DataPoint): ChartPoint
  {
    ChartPoint(d.createdAt, ParseFloatOf(d.value))
  }

  predicate Plottable(d: DataPoint)
  {
    !ParseFloatOf(d.value).NaN?
  }

  /** The map/filter pipeline of getChartData: every point whose value does
      not parse to NaN, converted, and no other point. */
  function ChartPoints(data: seq<DataPoint>): (r: seq<ChartPoint>)
    ensures |r| <= |data|
    ensures forall c :: c in r ==> !c.value.NaN?
    ensures forall i :: 0 <= i < |data| && Plottable(data[i]) ==> ToChartPoint(data[i]) in r
    ensures forall c :: c in r ==> exists i :: 0 <= i < |data| && Plottable(data[i]) && c == ToChartPoint(data[i])
  {
    if data == [] then []
    else
      var rest := ChartPoints(data[1..]);
      assert forall i :: 1 <= i < |data| ==> data[i] == data[1..][i - 1];
      if Plottable(data[0]) then [ToChartPoint(data[0])] + rest else rest
  }

  /** The pipeline keeps the input order: it works segment by segment. */
  lemma {:induction false} ChartPointsAppend(a: seq<DataPoint>, b: seq<DataPoint>)
    ensures ChartPoints(a + b) == ChartPoints(a) + ChartPoints(b)
  {
    if a == [] {
      assert a + b == b;
    } else {
      assert (a + b)[1..] == a[1..] + b;
      ChartPointsAppend(a[1..], b);
    }
  }

  /** The number of points that survive: exactly the plottable ones. */
  function CountPlottable(data: seq<DataPoint>): nat
  {
    if data == [] then 0 else (if Plottable(data[0]) then 1 else 0) + CountPlottable(data[1..])
  }

  lemma {:induction false} ChartPointsCount(data: seq<DataPoint>)
    ensures |ChartPoints(data)| == CountPlottable(data)
    ensures CountPlottable(data) == |data| ==> ChartPoints(data) == seq(|data|, i requires 0 <= i < |data| => ToChartPoint(data[i]))
  {
    if data != [] {
      ChartPointsCount(data[1..]);
      CountPlottableBound(data[1..]);
    }
  }

  lemma {:induction false} CountPlottableBound(data: seq<DataPoint>)
    ensures CountPlottable(data) <= |data|
  {
    if data != [] {
      CountPlottableBound(data[1..]);
    }
  }

  /** getChartData: fetch the window, then shape it; a failed fetch is re-thrown. */
  function GetChartData(feedKey: string, hours: int, now: int,
                        fetch: DataRequest -> Result<seq<DataPoint>, Caught>): (r: Result<seq<ChartPoint>, Caught>)
    ensures r.Err? <==> fetch(ChartRequest(feedKey, hours, now)).Err?
    ensures r.Err? ==> r.error == fetch(ChartRequest(feedKey, hours, now)).error
    ensures r.Ok? ==> r.value == ChartPoints(fetch(ChartRequest(feedKey, hours, now)).value)
    ensures r.Ok? ==> |r.value| == CountPlottable(fetch(ChartRequest(feedKey, hours, now)).value)
  {
    match fetch(ChartRequest(feedKey, hours, now))
    case Err(e) => Err(e)
    case Ok(data) => ChartPointsCount(data); Ok(ChartPoints(data))
  }

  /** Three raw points, one of them not numeric, give two chart points. */
  lemma ChartExample(t0: int)
    ensures |ChartPoints([DataPoint("a", NumValue(1.0), t0),
                          DataPoint("b", TextValue("x", NaN, NaN), t0 + 1),
                          DataPoint("c", TextValue("2.5", Finite(2.5), Finite(2.5)), t0 + 2)])| == 2
  {
    var data := [DataPoint("a", NumValue(1.0), t0),
                 DataPoint("b", TextValue("x", NaN, NaN), t0 + 1),
                 DataPoint("c", TextValue("2.5", Finite(2.5), Finite(2.5)), t0 + 2)];
    assert data[1..][1..] == [data[2]];
    assert ChartPoints([data[2]]) == [ToChartPoint(data[2])];
    assert ChartPoints(data[1..]) == [ToChartPoint(data[2])];
  }

  // ===== Latest value of every feed =====

  datatype LastValueEntry = LastValueEntry(feedKey: string, lastValue: Option<DataPoint>)

  /** The per-feed results of getAllLastData that were fulfilled; a feed
      whose getLastValue throws is dropped. */
  function Fulfilled(feeds: seq<Feed>, fetchLast: string -> Result<Option<DataPoint>, Caught>): (r: seq<LastValueEntry>)
    ensures |r| <= |feeds|
    ensures forall e :: e in r ==>
              exists i :: 0 <= i < |feeds| && e.feedKey == feeds[i].key && GetLastValue(fetchLast(feeds[i].key)) == Ok(e.lastValue)
    ensures forall i :: 0 <= i < |feeds| && GetLastValue(fetchLast(feeds[i].key)).Ok? ==>
              LastValueEntry(feeds[i].key, GetLastValue(fetchLast(feeds[i].key)).value) in r
  {
    if feeds == [] then []
    else
      var rest := Fulfilled(feeds[1..], fetchLast);
      assert forall i :: 1 <= i < |feeds| ==> feeds[i] == feeds[1..][i - 1];
      match GetLastValue(fetchLast(feeds[0].key))
      case Ok(v) => [LastValueEntry(feeds[0].key, v)] + rest
      case Err(_) => rest
  }

  /** The results keep the order of the feed list. */
  lemma {:induction false} FulfilledAppend(a: seq<Feed>, b: seq<Feed>, fetchLast: string -> Result<Option<DataPoint>, Caught>)
    ensures Fulfilled(a + b, fetchLast) == Fulfilled(a, fetchLast) + Fulfilled(b, fetchLast)
  {
    if a == [] {
      assert a + b == b;
    } else {
      assert (a + b)[1..] == a[1..] + b;
      FulfilledAppend(a[1..], b, fetchLast);
    }
  }

  /** When no per-feed lookup fails, every feed has its entry, in order. */
  lemma {:induction false} FulfilledAllSucceed(feeds: seq<Feed>, fetchLast: string -> Result<Option<DataPoint>, Caught>)
    requires forall i :: 0 <= i < |feeds| ==> GetLastValue(fetchLast(feeds[i].key)).Ok?
    ensures |Fulfilled(feeds, fetchLast)| == |feeds|
    ensures forall i :: 0 <= i < |feeds| ==>
              Fulfilled(feeds, fetchLast)[i] == LastValueEntry(feeds[i].key, GetLastValue(fetchLast(feeds[i].key)).value)
  {
    if feeds != [] {
      FulfilledAllSucceed(feeds[1..], fetchLast);
      var head := LastValueEntry(feeds[0].key, GetLastValue(fetchLast(feeds[0].key)).value);
      assert Fulfilled(feeds, fetchLast) == [head] + Fulfilled(feeds[1..], fetchLast);
      forall i | 1 <= i < |feeds|
        ensures Fulfilled(feeds, fetchLast)[i] == LastValueEntry(feeds[i].key, GetLastValue(fetchLast(feeds[i].key)).value)
      {
        assert feeds[i] == feeds[1..][i - 1];
      }
    }
  }

  /** getAllLastData: list the feeds (a failure is re-thrown), then keep the
      fulfilled per-feed results. */
  function AllLastData(feeds: Result<seq<Feed>, Caught>, fetchLast: string -> Result<Option<DataPoint>, Caught>)
    : (r: Result<seq<LastValueEntry>, Caught>)
    ensures feeds.Err? ==> r == Err(feeds.error)
    ensures feeds.Ok? ==> r == Ok(Fulfilled(feeds.value, fetchLast))
    ensures feeds.Ok? ==> |r.value| <= |feeds.value|
  {
    match feeds
    case Err(e) => Err(e)
    case Ok(fs) => Ok(Fulfilled(fs, fetchLast))
  }

  // ===== Default feeds =====

  /** An entry of initializeDefaultFeeds' own table of defaults. */
  datatype DefaultFeed = DefaultFeed(key: string, name: string, description: string, unit: string)

  /** The defaults as initializeDefaultFeeds spells them out. */
  const DEFAULT_FEEDS: seq<DefaultFeed> := [
    DefaultFeed("sound-sensor", "Sensor de Sonido", "Nivel de ruido detectado por el micrófono", "dB"),
    DefaultFeed("gas-sensor", "Sensor de Gas MQ-2", "Calidad del aire - detección de gases", "PPM"),
    DefaultFeed("temperature", "Temperatura", "Temperatura ambiente medida por DHT11", "°C"),
    DefaultFeed("humidity", "Humedad", "Humedad relativa medida por DHT11", "%"),
    DefaultFeed("motion-detector", "Detector de Movimiento", "Detección de presencia mediante sensor PIR", "bool"),
    DefaultFeed("ultrasonic-distance", "Distancia Ultrasónica - Espacio 1",
                "Distancia medida por sensor HC-SR04 para espacio de estacionamiento 1", "cm"),
    DefaultFeed("ultrasonic-distance2", "Distancia Ultrasónica - Espacio 2",
                "Distancia medida por sensor HC-SR04 para espacio de estacionamiento 2", "cm"),
    DefaultFeed("nfc-uid", "Lector NFC", "UID de tarjetas NFC leídas por RC522", "string"),
    DefaultFeed("servo-angle", "Ángulo del Servo", "Posición angular del servomotor", "°")
  ]

  /** The service's table repeats FEED_CONFIG key for key, field for field, in order. */
  lemma DefaultFeedsMatchConfig()
    ensures |DEFAULT_FEEDS| == |FEED_KEYS|
    ensures forall i :: 0 <= i < |FEED_KEYS| ==>
              DEFAULT_FEEDS[i] == DefaultFeed(KeyText(FEED_KEYS[i]), Config(FEED_KEYS[i]).name,
                                              Config(FEED_KEYS[i]).description, Config(FEED_KEYS[i]).unit)
  {
  }

  /** The payload createFeed receives for a default: no `enabled` field. */
  function DefaultPayload(d: DefaultFeed): FeedPayload
  {
    FeedPayload(Some(d.name), d.key, Some(d.description), Some(d.unit), None)
  }

  /** The defaults whose key is not among the existing keys, in table order. */
  function Absent(defaults: seq<DefaultFeed>, existing: set<string>): (r: seq<DefaultFeed>)
    ensures |r| <= |defaults|
    ensures forall d :: d in r <==> d in defaults && d.key !in existing
  {
    if defaults == [] then []
    else
      var rest := Absent(defaults[1..], existing);
      assert forall d :: d in defaults <==> d == defaults[0] || d in defaults[1..];
      if defaults[0].key in existing then rest else [defaults[0]] + rest
  }

  lemma {:induction false} AbsentAppend(a: seq<DefaultFeed>, b: seq<DefaultFeed>, existing: set<string>)
    ensures Absent(a + b, existing) == Absent(a, existing) + Absent(b, existing)
  {
    if a == [] {
      assert a + b == b;
    } else {
      assert (a + b)[1..] == a[1..] + b;
      AbsentAppend(a[1..], b, existing);
    }
  }

  /** What one creation attempt contributes: the new feed, or nothing when
      createFeed throws. */
  function Attempt(d: DefaultFeed, create: CreateBody -> Result<Feed, Caught>): (r: seq<Feed>)
    ensures |r| <= 1
    ensures |r| == 1 <==> create(CreateBodyFor(DefaultPayload(d))).Ok?
    ensures |r| == 1 ==> r[0] == create(CreateBodyFor(DefaultPayload(d))).value
  {
    match create(CreateBodyFor(DefaultPayload(d)))
    case Ok(f) => [f]
    case Err(_) => []
  }

  /** The outcome of the create call for one default. */
  function CreateCall(create: CreateBody -> Result<Feed, Caught>): DefaultFeed -> Result<Feed, Caught>
  {
    (d: DefaultFeed) => create(CreateBodyFor(DefaultPayload(d)))
  }

  /** The feeds created for a list of attempts, in order. */
  function Created(attempts: seq<DefaultFeed>, create: CreateBody -> Result<Feed, Caught>): (r: seq<Feed>)
    ensures |r| <= |attempts|
    ensures forall f :: f in r <==> exists i :: 0 <= i < |attempts| && create(CreateBodyFor(DefaultPayload(attempts[i]))) == Ok(f)
  {
    Successes(attempts, CreateCall(create))
  }

  /** When every creation succeeds, there is one new feed per attempt. */
  lemma CreatedAllSucceed(attempts: seq<DefaultFeed>, create: CreateBody -> Result<Feed, Caught>)
    requires forall i :: 0 <= i < |attempts| ==> create(CreateBodyFor(DefaultPayload(attempts[i]))).Ok?
    ensures |Created(attempts, create)| == |attempts|
  {
    SuccessesAllOk(attempts, CreateCall(create));
  }

  /** A single default is absent exactly when its key is not taken. */
  lemma AbsentOne(d: DefaultFeed, existing: set<string>)
    ensures Absent([d], existing) == if d.key in existing then [] else [d]
  {
    assert [d][1..] == [];
  }

  /** One more default walked: nothing when its key is taken, else the outcome of its attempt. */
  lemma CreateMissingStep(defaults: seq<DefaultFeed>, i: nat, existingKeys: set<string>, create: CreateBody -> Result<Feed, Caught>)
    requires i < |defaults|
    ensures Created(Absent(defaults[..i + 1], existingKeys), create)
            == Created(Absent(defaults[..i], existingKeys), create)
               + (if defaults[i].key in existingKeys then [] else Attempt(defaults[i], create))
  {
    var d := defaults[i];
    var before := Absent(defaults[..i], existingKeys);
    assert defaults[..i + 1] == defaults[..i] + [d];
    AbsentAppend(defaults[..i], [d], existingKeys);
    AbsentOne(d, existingKeys);
    if d.key !in existingKeys {
      SuccessesSnoc(before, d, CreateCall(create));
    } else {
      assert before + [] == before;
    }
  }

  /** The loop of initializeDefaultFeeds over a table of defaults: create
      each default whose key is not taken, in order, collecting the
      creations that succeed and skipping those that fail. */
  method CreateMissing(defaults: seq<DefaultFeed>, existingKeys: set<string>, create: CreateBody -> Result<Feed, Caught>)
    returns (createdFeeds: seq<Feed>)
    ensures createdFeeds == Created(Absent(defaults, existingKeys), create)
  {
    createdFeeds := [];
    var i := 0;
    while i < |defaults|
      invariant 0 <= i <= |defaults|
      invariant createdFeeds == Created(Absent(defaults[..i], existingKeys), create)
    {
      var feedConfig := defaults[i];
      CreateMissingStep(defaults, i, existingKeys, create);
      if feedConfig.key !in existingKeys {
        var outcome := create(CreateBodyFor(DefaultPayload(feedConfig)));
        if outcome.Ok? {
          createdFeeds := createdFeeds + [outcome.value];
        }
      }
      i := i + 1;
    }
    assert defaults[..i] == defaults;
  }

  /** initializeDefaultFeeds: list the existing feeds (a failure is
      re-thrown), then create the defaults whose key is not taken. */
  method InitializeDefaultFeeds(existingFeeds: Result<seq<Feed>, Caught>, create: CreateBody -> Result<Feed, Caught>)
    returns (r: Result<seq<Feed>, Caught>)
    ensures existingFeeds.Err? ==> r == Err(existingFeeds.error)
    ensures existingFeeds.Ok? ==> r == Ok(Created(Absent(DEFAULT_FEEDS, KeySet(existingFeeds.value)), create))
  {
    if existingFeeds.Err? {
      return Err(existingFeeds.error);
    }
    var createdFeeds := CreateMissing(DEFAULT_FEEDS, KeySet(existingFeeds.value), create);
    return Ok(createdFeeds);
  }

  function DefaultKeys(ds: seq<DefaultFeed>): set<string>
  {
    set d | d in ds :: d.key
  }

  /** Running the bootstrap again after a run whose creations all succeeded
      attempts nothing: every default key is then taken. */
  lemma BootstrapIdempotent(defaults: seq<DefaultFeed>, existing: set<string>)
    ensures Absent(defaults, existing + DefaultKeys(Absent(defaults, existing))) == []
  {
    var first := Absent(defaults, existing);
    forall d | d in defaults
      ensures d.key in existing + DefaultKeys(first)
    {
      if d.key !in existing {
        assert d in first;
      }
    }
    var second := Absent(defaults, existing + DefaultKeys(first));
    assert second == [] || second[0] in second;
  }
}
