/** The feed controllers (src/app/api/controllers/feeds/feeds.controller.ts):
    each wraps a gateway call and reclassifies its failure by looking for
    status codes and error texts inside the failure's message. A gateway
    call is its outcome, passed in; failures are the `Caught` errors of the
    gateway model. */
module FeedsController {
  import opened Common
  import opened Errors
  import opened FeedConstants
  import opened FeedSchemas
  import opened FeedModels
  import opened AdafruitService

  // ===== Reclassification of failures =====

  /** getAllFeeds: '401'/'403' first, then '429', else the upstream message
      wrapped as an upstream error. */
  function ListFailure(msg: string): (e: DomainError)
    ensures e == Unauthorized <==> MentionsUnauthorized(msg)
    ensures e == RateLimit <==> !MentionsUnauthorized(msg) && MentionsRateLimit(msg)
    ensures e == AdafruitIoError(msg) <==> !MentionsUnauthorized(msg) && !MentionsRateLimit(msg)
  {
    if MentionsUnauthorized(msg) then Unauthorized
    else if MentionsRateLimit(msg) then RateLimit
    else AdafruitIoError(msg)
  }

  /** getFeed, updateFeed and deleteFeed: '404' is checked before
      '401'/'403', so a message carrying both reports the missing feed. */
  function FeedLookupFailure(feedKey: string, msg: string): (e: DomainError)
    ensures e == FeedNotFound(feedKey) <==> MentionsNotFound(msg)
    ensures e == Unauthorized <==> !MentionsNotFound(msg) && MentionsUnauthorized(msg)
    ensures e == AdafruitIoError(msg) <==> !MentionsNotFound(msg) && !MentionsUnauthorized(msg)
  {
    if MentionsNotFound(msg) then FeedNotFound(feedKey)
    else if MentionsUnauthorized(msg) then Unauthorized
    else AdafruitIoError(msg)
  }

  /** getFeedData, updateDataPoint, deleteDataPoint and getChartFeedData:
      only '404' is recognised; '401' or '429' is reported as an upstream error. */
  function DataAccessFailure(feedKey: string, msg: string): (e: DomainError)
    ensures e == FeedNotFound(feedKey) <==> MentionsNotFound(msg)
    ensures e == AdafruitIoError(msg) <==> !MentionsNotFound(msg)
  {
    if MentionsNotFound(msg) then FeedNotFound(feedKey) else AdafruitIoError(msg)
  }

  /** createData: '404', then '401'/'403', then '429', else a creation failure
      naming the key (the upstream message is dropped). */
  function CreateDataFailure(feedKey: string, msg: string): (e: DomainError)
    ensures e == FeedNotFound(feedKey) <==> MentionsNotFound(msg)
    ensures e == Unauthorized <==> !MentionsNotFound(msg) && MentionsUnauthorized(msg)
    ensures e == RateLimit <==> !MentionsNotFound(msg) && !MentionsUnauthorized(msg) && MentionsRateLimit(msg)
    ensures e == DataCreationFailed(feedKey) <==> !MentionsNotFound(msg) && !MentionsUnauthorized(msg) && !MentionsRateLimit(msg)
  {
    if MentionsNotFound(msg) then FeedNotFound(feedKey)
    else if MentionsUnauthorized(msg) then Unauthorized
    else if MentionsRateLimit(msg) then RateLimit
    else DataCreationFailed(feedKey)
  }

  /** A controller call: the gateway's value, or its failure reclassified. */
  function Guard<T>(r: Result<T, Caught>, classify: string -> DomainError): (c: Result<T, DomainError>)
    ensures r.Ok? ==> c == Ok(r.value)
    ensures r.Err? ==> c == Err(classify(r.error.message))
  {
    match r
    case Ok(v) => Ok(v)
    case Err(f) => Err(classify(f.message))
  }

  /** The two operations that reclassify alike can still disagree: a
      message naming both 404 and 401 is "not found" for getFeed but
      "unauthorized" for getAllFeeds. */
  lemma ClassificationOrderMatters(feedKey: string, msg: string)
    requires MentionsNotFound(msg) && MentionsUnauthorized(msg)
    ensures FeedLookupFailure(feedKey, msg) == FeedNotFound(feedKey)
    ensures ListFailure(msg) == Unauthorized
    ensures CreateDataFailure(feedKey, msg) == FeedNotFound(feedKey)
  {
  }

  // ===== deleteFeed / deleteDataPoint acknowledgements =====

  datatype Ack = Ack(success: bool, message: string)

  /** deleteFeed: the acknowledgement names the feed. */
  function DeleteFeed(feedKey: string, r: Result<(), Caught>): (c: Result<Ack, DomainError>)
    ensures c.Ok? <==> r.Ok?
    ensures c.Ok? ==> c.value.success && c.value.message == "Feed " + feedKey + " deleted successfully"
    ensures r.Err? ==> c.error == FeedLookupFailure(feedKey, r.error.message)
  {
    match r
    case Ok(_) => Ok(Ack(true, "Feed " + feedKey + " deleted successfully"))
    case Err(f) => Err(FeedLookupFailure(feedKey, f.message))
  }

  /** deleteDataPoint: the acknowledgement names the data point. */
  function DeleteDataPoint(feedKey: string, dataId: string, r: Result<(), Caught>): (c: Result<Ack, DomainError>)
    ensures c.Ok? <==> r.Ok?
    ensures c.Ok? ==> c.value.success && c.value.message == "Data point " + dataId + " deleted successfully"
    ensures r.Err? ==> c.error == DataAccessFailure(feedKey, r.error.message)
  {
    match r
    case Ok(_) => Ok(Ack(true, "Data point " + dataId + " deleted successfully"))
    case Err(f) => Err(DataAccessFailure(feedKey, f.message))
  }

  // ===== createFeed =====

  /** The caller's payload with FEED_CONFIG's name, description and unit
      filled in where the caller's value is falsy; an unknown key changes nothing. */
  function WithConfigDefaults(p: FeedPayload): (q: FeedPayload)
    ensures q.key == p.key && q.enabled == p.enabled
    ensures ConfigFor(p.key).None? ==> q == p
    ensures Truthy(p.name) ==> q.name == p.name
    ensures Truthy(p.description) ==> q.description == p.description
    ensures Truthy(p.unit) ==> q.unit == p.unit
    ensures ConfigFor(p.key).Some? ==> Truthy(q.name) && Truthy(q.description) && Truthy(q.unit)
    ensures ConfigFor(p.key).Some? && !Truthy(p.name) ==> q.name == Some(ConfigFor(p.key).value.name)
    ensures ConfigFor(p.key).Some? && !Truthy(p.description) ==> q.description == Some(ConfigFor(p.key).value.description)
    ensures ConfigFor(p.key).Some? && !Truthy(p.unit) ==> q.unit == Some(ConfigFor(p.key).value.unit)
  {
    match ConfigFor(p.key)
    case None => p
    case Some(config) =>
      FeedPayload(if Truthy(p.name) then p.name else Some(config.name),
                  p.key,
                  if Truthy(p.description) then p.description else Some(config.description),
                  if Truthy(p.unit) then p.unit else Some(config.unit),
                  p.enabled)
  }

  /** Filling in defaults twice is filling them in once. */
  lemma ConfigDefaultsIdempotent(p: FeedPayload)
    ensures WithConfigDefaults(WithConfigDefaults(p)) == WithConfigDefaults(p)
  {
  }

  /** The payload object createFeed receives and mutates. */
  class FeedPayloadObject {
    var name: Option<string>
    var key: string
    var description: Option<string>
    var unit: Option<string>
    var enabled: Option<bool>

    constructor (p: FeedPayload)
      ensures Value() == p
    {
      name := p.name;
      key := p.key;
      description := p.description;
      unit := p.unit;
      enabled := p.enabled;
    }

    function Value(): FeedPayload
      reads this
    {
      FeedPayload(name, key, description, unit, enabled)
    }

    /** createFeed's three `x = x || config.x` assignments. */
    method ApplyConfigDefaults()
      modifies this
      ensures Value() == WithConfigDefaults(old(Value()))
    {
      var config := ConfigFor(key);
      if config.Some? {
        name := if Truthy(name) then name else Some(config.value.name);
        description := if Truthy(description) then description else Some(config.value.description);
        unit := if Truthy(unit) then unit else Some(config.value.unit);
      }
    }
  }

  /** The message that reaches createFeed's inner catch: the conflict it
      raises itself after a successful probe, or the probe's failure. */
  function ProbeMessage(t: ErrorTexts, feedKey: string, probe: Result<Feed, Caught>): (m: string)
    ensures probe.Ok? ==> m == Message(t, FeedAlreadyExists(feedKey))
    ensures probe.Err? ==> m == probe.error.message
  {
    match probe
    case Ok(_) => t.feedAlreadyExists(feedKey)
    case Err(f) => f.message
  }

  /** The remote create is attempted only when the inner catch sees '404'. */
  predicate CreateAttempted(t: ErrorTexts, feedKey: string, probe: Result<Feed, Caught>)
  {
    MentionsNotFound(ProbeMessage(t, feedKey, probe))
  }

  /** createFeed's outer catch: an error whose message contains the
      conflict text built from an empty key is re-thrown unchanged; then
      '401'/'403'; else a creation failure naming the key. */
  function CreateFeedFailure(t: ErrorTexts, feedKey: string, msg: string): (e: Thrown)
    ensures e == Rethrown(msg) <==> Contains(msg, t.feedAlreadyExists(""))
    ensures e == Raised(Unauthorized) <==> !Contains(msg, t.feedAlreadyExists("")) && MentionsUnauthorized(msg)
    ensures e == Raised(FeedCreationFailed(feedKey)) <==> !Contains(msg, t.feedAlreadyExists("")) && !MentionsUnauthorized(msg)
  {
    if Contains(msg, t.feedAlreadyExists("")) then Rethrown(msg)
    else if MentionsUnauthorized(msg) then Raised(Unauthorized)
    else Raised(FeedCreationFailed(feedKey))
  }

  /** createFeed as a whole, on the payload as the caller passed it. */
  function CreateFeedOutcome(t: ErrorTexts, p: FeedPayload, probe: Result<Feed, Caught>,
                             create: CreateBody -> Result<Feed, Caught>): (r: Result<Feed, Thrown>)
    ensures !CreateAttempted(t, p.key, probe) ==> r == Err(CreateFeedFailure(t, p.key, ProbeMessage(t, p.key, probe)))
    ensures r.Ok? ==> CreateAttempted(t, p.key, probe) && create(CreateBodyFor(WithConfigDefaults(p))) == Ok(r.value)
    ensures CreateAttempted(t, p.key, probe) && create(CreateBodyFor(WithConfigDefaults(p))).Ok? ==>
              r == Ok(create(CreateBodyFor(WithConfigDefaults(p))).value)
    ensures CreateAttempted(t, p.key, probe) && create(CreateBodyFor(WithConfigDefaults(p))).Err? ==>
              r == Err(CreateFeedFailure(t, p.key, create(CreateBodyFor(WithConfigDefaults(p))).error.message))
  {
    if !CreateAttempted(t, p.key, probe) then Err(CreateFeedFailure(t, p.key, ProbeMessage(t, p.key, probe)))
    else
      match create(CreateBodyFor(WithConfigDefaults(p)))
      case Ok(feed) => Ok(feed)
      case Err(f) => Err(CreateFeedFailure(t, p.key, f.message))
  }

  /** createFeed: probe, fill in defaults on the caller's object, create. */
  method CreateFeed(t: ErrorTexts, payload: FeedPayloadObject, probe: Result<Feed, Caught>,
                    create: CreateBody -> Result<Feed, Caught>) returns (r: Result<Feed, Thrown>)
    modifies payload
    ensures r == CreateFeedOutcome(t, old(payload.Value()), probe, create)
    ensures CreateAttempted(t, old(payload.key), probe) ==> payload.Value() == WithConfigDefaults(old(payload.Value()))
    ensures !CreateAttempted(t, old(payload.key), probe) ==> payload.Value() == old(payload.Value())
  {
    var probeMessage := ProbeMessage(t, payload.key, probe);
    if !MentionsNotFound(probeMessage) {
      return Err(CreateFeedFailure(t, payload.key, probeMessage));
    }
    payload.ApplyConfigDefaults();
    var outcome := create(CreateBodyFor(payload.Value()));
    if outcome.Err? {
      return Err(CreateFeedFailure(t, payload.key, outcome.error.message));
    }
    return Ok(outcome.value);
  }

  /** Only a probe answered with '404' lets the remote create run: otherwise
      the outcome is the same whatever the create call would do. */
  lemma CreateNeedsNotFoundProbe(t: ErrorTexts, p: FeedPayload, probe: Result<Feed, Caught>,
                                 create1: CreateBody -> Result<Feed, Caught>, create2: CreateBody -> Result<Feed, Caught>)
    requires !CreateAttempted(t, p.key, probe)
    ensures CreateFeedOutcome(t, p, probe, create1) == CreateFeedOutcome(t, p, probe, create2)
    ensures CreateFeedOutcome(t, p, probe, create1).Err?
  {
  }

  /** An existing feed is reported as a conflict, re-raised unchanged,
      provided the conflict text neither mentions '404' nor stops
      containing its empty-key form once the key is filled in. */
  lemma ExistingFeedConflicts(t: ErrorTexts, p: FeedPayload, probe: Result<Feed, Caught>,
                              create: CreateBody -> Result<Feed, Caught>)
    requires probe.Ok?
    requires !MentionsNotFound(t.feedAlreadyExists(p.key))
    requires Contains(t.feedAlreadyExists(p.key), t.feedAlreadyExists(""))
    ensures CreateFeedOutcome(t, p, probe, create) == Err(Rethrown(Message(t, FeedAlreadyExists(p.key))))
  {
  }

  /** When the conflict text built from the key does not contain its
      empty-key form (the key sits between two fixed parts), the conflict
      is lost: an existing feed is reported as a failed creation. */
  lemma ExistingFeedConflictLost(t: ErrorTexts, p: FeedPayload, probe: Result<Feed, Caught>,
                                 create: CreateBody -> Result<Feed, Caught>)
    requires probe.Ok?
    requires !MentionsNotFound(t.feedAlreadyExists(p.key)) && !MentionsUnauthorized(t.feedAlreadyExists(p.key))
    requires !Contains(t.feedAlreadyExists(p.key), t.feedAlreadyExists(""))
    ensures CreateFeedOutcome(t, p, probe, create) == Err(Raised(FeedCreationFailed(p.key)))
  {
  }

  /** Every failure of createFeed is a re-thrown conflict, Unauthorized, or
      a creation failure naming the key. */
  lemma CreateFeedFailureKinds(t: ErrorTexts, p: FeedPayload, probe: Result<Feed, Caught>,
                               create: CreateBody -> Result<Feed, Caught>)
    ensures CreateFeedOutcome(t, p, probe, create).Err? ==>
              var e := CreateFeedOutcome(t, p, probe, create).error;
              (e.Rethrown? && Contains(e.message, t.feedAlreadyExists(""))) ||
              e == Raised(Unauthorized) || e == Raised(FeedCreationFailed(p.key))
  {
  }

  // ===== getLastData =====

  /** getLastData's catch: an error carrying the no-data text built from an
      empty key passes through unchanged; then '404'; else an upstream error. */
  function LastDataFailure(t: ErrorTexts, feedKey: string, msg: string): (e: Thrown)
    ensures e == Rethrown(msg) <==> Contains(msg, t.noDataAvailable(""))
    ensures e == Raised(FeedNotFound(feedKey)) <==> !Contains(msg, t.noDataAvailable("")) && MentionsNotFound(msg)
    ensures e == Raised(AdafruitIoError(msg)) <==> !Contains(msg, t.noDataAvailable("")) && !MentionsNotFound(msg)
  {
    if Contains(msg, t.noDataAvailable("")) then Rethrown(msg)
    else if MentionsNotFound(msg) then Raised(FeedNotFound(feedKey))
    else Raised(AdafruitIoError(msg))
  }

  /** getLastData: no value is itself an error, raised inside the try and
      so seen by the same catch. */
  function GetLastData(t: ErrorTexts, feedKey: string, r: Result<Option<DataPoint>, Caught>): (c: Result<DataPoint, Thrown>)
    ensures c.Ok? <==> r.Ok? && r.value.Some?
    ensures c.Ok? ==> c.value == r.value.value
    ensures r == Ok(None) ==> c == Err(LastDataFailure(t, feedKey, Message(t, NoDataAvailable(feedKey))))
    ensures r.Err? ==> c == Err(LastDataFailure(t, feedKey, r.error.message))
  {
    match r
    case Ok(Some(d)) => Ok(d)
    case Ok(None) => Err(LastDataFailure(t, feedKey, t.noDataAvailable(feedKey)))
    case Err(f) => Err(LastDataFailure(t, feedKey, f.message))
  }

  /** A missing value is reported as "no data", not turned into
      "not found" or an upstream error, whenever the no-data text for the
      key contains its empty-key form. */
  lemma NoDataPassesThrough(t: ErrorTexts, feedKey: string)
    requires Contains(t.noDataAvailable(feedKey), t.noDataAvailable(""))
    ensures GetLastData(t, feedKey, Ok(None)) == Err(Rethrown(Message(t, NoDataAvailable(feedKey))))
  {
  }

  // ===== getAllLastData =====

  /** One entry of the controller's summary: never a failure, a failed
      fetch is marked by `error` and a null value. */
  datatype LastDataEntry = LastDataEntry(
    feedKey: string, feedName: string, lastValue: Option<DataPoint>,
    config: Option<FeedConfig>, error: Option<string>)

  const NO_DATA_MARK: string := "No data available"

  function EntryFor(feed: Feed, fetched: Result<Option<DataPoint>, Caught>): LastDataEntry
  {
    match fetched
    case Ok(v) => LastDataEntry(feed.key, feed.name, v, ConfigFor(feed.key), None)
    case Err(_) => LastDataEntry(feed.key, feed.name, None, ConfigFor(feed.key), Some(NO_DATA_MARK))
  }

  /** The per-feed map: exactly one entry per feed, in feed order. */
  function LastDataEntries(feeds: seq<Feed>, fetchLast: string -> Result<Option<DataPoint>, Caught>): (r: seq<LastDataEntry>)
    ensures |r| == |feeds|
    ensures forall i :: 0 <= i < |feeds| ==>
              r[i].feedKey == feeds[i].key && r[i].feedName == feeds[i].name && r[i].config == ConfigFor(feeds[i].key)
    ensures forall i :: 0 <= i < |feeds| ==>
              (r[i].error == Some(NO_DATA_MARK) && r[i].lastValue.None? <==> fetchLast(feeds[i].key).Err?)
    ensures forall i :: 0 <= i < |feeds| && fetchLast(feeds[i].key).Ok? ==>
              r[i].lastValue == fetchLast(feeds[i].key).value && r[i].error.None?
  {
    if feeds == [] then []
    else [EntryFor(feeds[0], fetchLast(feeds[0].key))] + LastDataEntries(feeds[1..], fetchLast)
  }

  /** getAllLastData: list the feeds through the getAllFeeds controller; its
      error, already reclassified, is wrapped once more as an upstream error. */
  function GetAllLastData(t: ErrorTexts, feeds: Result<seq<Feed>, Caught>,
                          fetchLast: string -> Result<Option<DataPoint>, Caught>): (r: Result<seq<LastDataEntry>, DomainError>)
    ensures feeds.Ok? ==> r == Ok(LastDataEntries(feeds.value, fetchLast))
    ensures feeds.Err? ==> r == Err(AdafruitIoError(Message(t, ListFailure(feeds.error.message))))
  {
    match feeds
    case Ok(fs) => Ok(LastDataEntries(fs, fetchLast))
    case Err(f) => Err(AdafruitIoError(Message(t, ListFailure(f.message))))
  }

  /** When every lookup succeeds, the controller's summary and the
      gateway's list the same feeds with the same values, in the same order. */
  lemma SummariesAgreeOnSuccesses(feeds: seq<Feed>, fetchLast: string -> Result<Option<DataPoint>, Caught>)
    requires forall i :: 0 <= i < |feeds| ==> GetLastValue(fetchLast(feeds[i].key)).Ok?
    ensures |Fulfilled(feeds, fetchLast)| == |LastDataEntries(feeds, k => GetLastValue(fetchLast(k)))|
    ensures forall i :: 0 <= i < |feeds| ==>
              Fulfilled(feeds, fetchLast)[i].feedKey == LastDataEntries(feeds, k => GetLastValue(fetchLast(k)))[i].feedKey &&
              Fulfilled(feeds, fetchLast)[i].lastValue == LastDataEntries(feeds, k => GetLastValue(fetchLast(k)))[i].lastValue
  {
    FulfilledAllSucceed(feeds, fetchLast);
  }

  // ===== getChartFeedData =====

  datatype ChartSummary = ChartSummary(
    feedKey: string, feedName: string, unit: string, data: seq<ChartPoint>, hours: int, totalPoints: nat)

  /** getChartFeedData: the config's name and unit for a known key, the key
      itself and '' otherwise; `totalPoints` counts the points returned. */
  function GetChartFeedData(feedKey: string, hours: int, chart: Result<seq<ChartPoint>, Caught>): (r: Result<ChartSummary, DomainError>)
    ensures chart.Err? ==> r == Err(DataAccessFailure(feedKey, chart.error.message))
    ensures chart.Ok? ==> r.Ok? && r.value.data == chart.value && r.value.totalPoints == |chart.value|
    ensures chart.Ok? ==> r.value.feedKey == feedKey && r.value.hours == hours
    ensures chart.Ok? && ConfigFor(feedKey).Some? ==>
              r.value.feedName == ConfigFor(feedKey).value.name && r.value.unit == ConfigFor(feedKey).value.unit
    ensures chart.Ok? && ConfigFor(feedKey).None? ==> r.value.feedName == feedKey && r.value.unit == ""
  {
    match chart
    case Err(f) => Err(DataAccessFailure(feedKey, f.message))
    case Ok(data) =>
      var config := ConfigFor(feedKey);
      Ok(ChartSummary(feedKey,
                      if config.Some? && config.value.name != "" then config.value.name else feedKey,
                      if config.Some? && config.value.unit != "" then config.value.unit else "",
                      data, hours, |data|))
  }

  // ===== initializeDefaultFeeds =====

  /** The payload built from a FEED_CONFIG entry, explicitly enabled. */
  function EntryPayload(entry: (string, FeedConfig)): FeedPayload
  {
    FeedPayload(Some(entry.1.name), entry.0, Some(entry.1.description), Some(entry.1.unit), Some(true))
  }

  /** The entries whose key is not among the existing keys, as payloads, in order. */
  function FeedsToCreate(entries: seq<(string, FeedConfig)>, existingKeys: set<string>): (r: seq<FeedPayload>)
    ensures |r| <= |entries|
    ensures forall p :: p in r ==> p.key !in existingKeys && p.enabled == Some(true)
    ensures forall p :: p in r ==> exists i :: 0 <= i < |entries| && p == EntryPayload(entries[i])
    ensures forall i :: 0 <= i < |entries| && entries[i].0 !in existingKeys ==> EntryPayload(entries[i]) in r
  {
    if entries == [] then []
    else
      var rest := FeedsToCreate(entries[1..], existingKeys);
      assert forall i :: 1 <= i < |entries| ==> entries[i] == entries[1..][i - 1];
      if entries[0].0 in existingKeys then rest else [EntryPayload(entries[0])] + rest
  }

  /** The feeds that createFeed returns for a list of payloads: exactly
      those of the calls that succeed, in order. */
  function CreatedFeeds(t: ErrorTexts, payloads: seq<FeedPayload>, probe: string -> Result<Feed, Caught>,
                        create: CreateBody -> Result<Feed, Caught>): (r: seq<Feed>)
    ensures |r| <= |payloads|
    ensures forall f :: f in r <==>
              exists i :: 0 <= i < |payloads| && CreateFeedOutcome(t, payloads[i], probe(payloads[i].key), create) == Ok(f)
  {
    Successes(payloads, (p: FeedPayload) => CreateFeedOutcome(t, p, probe(p.key), create))
  }

  /** The controller's report: counts before and after. */
  datatype InitReport = InitReport(existing: nat, created: nat, total: nat, createdFeeds: seq<Feed>)

  /** The loop over the payloads to create, collecting successes. */
  method CreateEach(t: ErrorTexts, feedsToCreate: seq<FeedPayload>, probe: string -> Result<Feed, Caught>,
                    create: CreateBody -> Result<Feed, Caught>) returns (createdFeeds: seq<Feed>)
    ensures createdFeeds == CreatedFeeds(t, feedsToCreate, probe, create)
  {
    createdFeeds := [];
    var i := 0;
    while i < |feedsToCreate|
      invariant 0 <= i <= |feedsToCreate|
      invariant createdFeeds == CreatedFeeds(t, feedsToCreate[..i], probe, create)
    {
      var feedPayload := feedsToCreate[i];
      var outcome := CreateFeedOutcome(t, feedPayload, probe(feedPayload.key), create);
      assert feedsToCreate[..i + 1][..i] == feedsToCreate[..i];
      if outcome.Ok? {
        createdFeeds := createdFeeds + [outcome.value];
      }
      i := i + 1;
    }
    assert feedsToCreate[..i] == feedsToCreate;
  }

  /** initializeDefaultFeeds: list the feeds through the getAllFeeds
      controller, create every FEED_CONFIG entry whose key is missing, and
      report existing, created and their sum. */
  method InitializeDefaultFeeds(t: ErrorTexts, existingFeeds: Result<seq<Feed>, Caught>,
                                probe: string -> Result<Feed, Caught>, create: CreateBody -> Result<Feed, Caught>)
    returns (r: Result<InitReport, DomainError>)
    ensures existingFeeds.Err? ==> r == Err(AdafruitIoError(Message(t, ListFailure(existingFeeds.error.message))))
    ensures existingFeeds.Ok? ==> r.Ok?
    ensures existingFeeds.Ok? ==>
              r.value.createdFeeds == CreatedFeeds(t, FeedsToCreate(ConfigEntries(FEED_KEYS), KeySet(existingFeeds.value)), probe, create)
    ensures existingFeeds.Ok? ==>
              r.value.existing == |existingFeeds.value| && r.value.created == |r.value.createdFeeds|
              && r.value.total == r.value.existing + r.value.created
  {
    if existingFeeds.Err? {
      return Err(AdafruitIoError(Message(t, ListFailure(existingFeeds.error.message))));
    }
    var existingKeys := KeySet(existingFeeds.value);
    var feedsToCreate := FeedsToCreate(ConfigEntries(FEED_KEYS), existingKeys);
    var createdFeeds := CreateEach(t, feedsToCreate, probe, create);
    return Ok(InitReport(|existingFeeds.value|, |createdFeeds|, |existingFeeds.value| + |createdFeeds|, createdFeeds));
  }

  /** When every key of the table already exists nothing is attempted. */
  lemma NothingToCreateWhenComplete(ks: seq<FeedKey>, existingKeys: set<string>)
    requires forall k: FeedKey :: KeyText(k) in existingKeys
    ensures FeedsToCreate(ConfigEntries(ks), existingKeys) == []
  {
    var entries := ConfigEntries(ks);
    forall i | 0 <= i < |entries|
      ensures entries[i].0 in existingKeys
    {
      assert entries[i].0 == KeyText(ks[i]);
    }
  }

  /** The payloads built from FEED_CONFIG already carry every default, so
      createFeed's in-place filling leaves them as they are, and each is
      created enabled. */
  lemma DefaultPayloadsAreComplete(ks: seq<FeedKey>, existingKeys: set<string>)
    ensures forall p :: p in FeedsToCreate(ConfigEntries(ks), existingKeys) ==>
              WithConfigDefaults(p) == p && CreateBodyFor(p).enabled
  {
    var entries := ConfigEntries(ks);
    forall p | p in FeedsToCreate(entries, existingKeys)
      ensures WithConfigDefaults(p) == p && CreateBodyFor(p).enabled
    {
      var i :| 0 <= i < |entries| && p == EntryPayload(entries[i]);
      assert entries[i].1 == Config(ks[i]);
    }
  }

  // ===== checkAdafruitConnection =====

  datatype ConnectionReport = ConnectionReport(
    connected: bool, username: Option<string>, feedCount: Option<nat>, error: Option<string>, message: string)

  const CONNECTED_TEXT: string := "Conexión exitosa con Adafruit IO"
  const UNREACHABLE_TEXT: string := "No se pudo conectar con Adafruit IO"
  const CHECK_FAILED_TEXT: string := "Error al verificar la conexión con Adafruit IO"

  /** checkAdafruitConnection: the connection test swallows its own
      failure into `false`; a failure of the follow-up listing is reported,
      never thrown. */
  function CheckConnection(test: Result<seq<Feed>, Caught>, feeds: Result<seq<Feed>, Caught>, username: Option<string>)
    : (r: ConnectionReport)
    ensures r.connected <==> test.Ok? && feeds.Ok?
    ensures r.connected ==> r.feedCount == Some(|feeds.value|) && r.username == username && r.message == CONNECTED_TEXT
    ensures test.Err? ==> r.message == UNREACHABLE_TEXT && r.error.None?
    ensures test.Ok? && feeds.Err? ==> r.message == CHECK_FAILED_TEXT && r.error == Some(feeds.error.message)
  {
    if test.Err? then ConnectionReport(false, None, None, None, UNREACHABLE_TEXT)
    else match feeds
      case Ok(fs) => ConnectionReport(true, username, Some(|fs|), None, CONNECTED_TEXT)
      case Err(f) => ConnectionReport(false, None, None, Some(f.message), CHECK_FAILED_TEXT)
  }
}
