# CEPort feeds core in Dafny

CEPort is an IoT dashboard for an ESP32 station. It has sound, gas, temperature, humidity, motion, two ultrasonic parking sensors, an NFC reader and a servo. The Express back end proxies the Adafruit IO REST API, and an Angular front end shows the readings.

This project models the core of both halves:

- **Back end.** The Adafruit IO service with its error interceptor, request bodies, chart data, last-value summaries and default-feed bootstrap. Also the feeds controller, which classifies upstream errors into domain errors and fills in configuration defaults. Also the Express routes, which validate input and map errors to HTTP statuses. Also the Joi schemas and the feed constants.
- **Front end.** The status classification of readings and the sensor-data store. Also the dashboard's latest-update summary and hourly parking-usage series, and the noise table's edit and delete handling. Also the loader interceptor with its request counter and message table, and the three-dots menu with its login guard.

Modules, one per source file:

- `Common`: Option and Result, JavaScript `includes`, truthiness and numbers.
- `Errors`: domain errors and their message texts, which are a parameter.
- `FeedConstants`, `FeedSchemas`, `FeedModels`.
- `AdafruitService`, `FeedsController`, `FeedsRoute`.
- `FeedsService`, `SensorData`, `Dashboard`, `NoiseView`.
- `LoaderInterceptor`, `ThreeDots`.

Conventions:

- Remote calls, the clock, `parseInt`, JavaScript number parsing and the error-message texts are parameters.
- A remote call is either a single outcome (`Result`) or a total function from request to outcome.
- Code that mutates state is modelled as classes: the noise table, the sensor store, the dashboard slots, the loader counter and the menu.
- Loops are methods proved equal to specification functions, and the lemmas are stated about those functions.

All source paths below are relative to the repository root.

## Model

| member | source | states |
|---|---|---|
| FeedConstants.KeyTexts | src/app/api/constants/feeds/feeds.constant.ts:2-12 | the key strings, one per key, in declaration order |
| FeedConstants.ParseFeedKey | src/app/api/constants/feeds/feeds.constant.ts:2-12 | a string parses to a key exactly when it is that key's text; otherwise no key has that text |
| FeedConstants.ParseKeyText | src/app/api/constants/feeds/feeds.constant.ts:2-12 | parsing a key's text gives back the key (round trip) |
| FeedConstants.FeedKeysDistinctAndComplete | src/app/api/constants/feeds/feeds.constant.ts:2-12 | there are nine key values, pairwise distinct, and every key is listed |
| FeedConstants.ParseFeedKeyExactlyFeedKeys | src/app/api/constants/feeds/feeds.constant.ts:2-12 | a string is a feed key iff it is one of the listed values |
| FeedConstants.Config | src/app/api/constants/feeds/feeds.constant.ts:15-61 | every key's configuration has a non-empty name, description and unit |
| FeedConstants.ConfigFor | src/app/api/constants/feeds/feeds.constant.ts:15-61 | each of the nine feed keys has its own configuration; any other key has none (JavaScript prototype names are outside this, see Left out) |
| FeedConstants.ConfigEntries | src/app/api/constants/feeds/feeds.constant.ts:15-61 | `Object.entries(FEED_CONFIG)`: one (key text, configuration) pair per key, in order |
| FeedModels.KeySet | src/app/api/services/adafruit/adafruit.service.ts:225 | the set of existing keys contains exactly the keys of the listed feeds |
| FeedSchemas.ValidatedEnabled | src/app/api/joi/feeds/feeds.joi.ts:42-44 | a missing `enabled` defaults to true; a given flag is kept |
| FeedSchemas.ToFeedPayload | src/app/api/routes/feeds/feeds.route.ts:91-105 | the controller receives the client's own values: the name and key as sent, a description and unit exactly when sent (so within 500 and 20 characters), and `enabled` only when the client sent it; the name has 1-100 characters and the key is a feed key |
| FeedSchemas.FeedKeySchemaAcceptsExactlyFeedKeys | src/app/api/joi/feeds/feeds.joi.ts:84-90 | the key schema accepts exactly the nine feed keys |
| FeedSchemas.FeedSchemaFieldRules | src/app/api/joi/feeds/feeds.joi.ts:6-45 | a valid feed body has a required name of 1-100 chars, an optional description of at most 500 chars, an optional unit of at most 20 chars and an optional boolean `enabled` |
| FeedSchemas.StrictImpliesLenient | src/app/api/joi/feeds/feeds.joi.ts:6-45 | strict validity implies validity with unknown keys allowed; the converse holds when there are no unknown keys |
| FeedSchemas.DataSchemaFieldRules | src/app/api/joi/feeds/feeds.joi.ts:47-82 | a valid data body has a required value that is a number or a 1-255 char string; latitude is in [-90, 90] and longitude in [-180, 180] |
| FeedsService.ParkingSpaceStatus | src/app/services/feeds/feeds.service.ts:157-161 | unknown iff the distance is 0; occupied iff it is in (0, 15]; free otherwise, including NaN and the infinities |
| FeedsService.StatusColor | src/app/services/feeds/feeds.service.ts:173-191 | primary exactly for keys outside the seven listed; danger only for gas, sound and the ultrasonic keys; secondary exactly for an ultrasonic distance of 0; NaN is never danger or secondary |
| FeedsService.StatusTextOf | src/app/services/feeds/feeds.service.ts:195-210 | the formatted value exactly for keys other than gas, sound, motion and the ultrasonic keys, carrying the value itself; every fixed label is non-empty |
| FeedsService.TextTierMatchesColorTier | src/app/services/feeds/feeds.service.ts:173-210 | for gas, sound, motion and ultrasonic keys the status text is the label of the tier chosen by the colour |
| FeedsService.TemperatureHumidityFallThrough | src/app/services/feeds/feeds.service.ts:195-210 | temperature and humidity have no text tiers: their text is the formatted value |
| FeedsService.ComfortBands | src/app/services/feeds/feeds.service.ts:179-182 | temperature warns iff below 15 or above 30; humidity warns iff below 30 or above 80; bounds and NaN are success |
| FeedsService.AlarmBands | src/app/services/feeds/feeds.service.ts:175-178 | gas is danger iff above 500, warning iff in (300, 500], success iff at most 300; sound likewise at 80 and 60; +Infinity is danger and NaN success |
| FeedsService.PresenceBands | src/app/services/feeds/feeds.service.ts:183-188 | motion warns iff the reading is exactly 1, else success; a parking sensor is danger iff its space is occupied and success iff it is free |
| FeedsService.UltrasonicKeysAgree | src/app/services/feeds/feeds.service.ts:185-188 | both ultrasonic keys get the same colour and text for any value |
| FeedsService.UnlistedKeyIsNeutral | src/app/services/feeds/feeds.service.ts:189-190 | an unlisted key is coloured primary and its text is the formatted value |
| FeedsService.ParkingAgreesWithConfig | src/app/api/constants/feeds/feeds.constant.ts:64-67 | for positive integer distances the front-end threshold agrees with the occupied/free bounds 15 and 16 |
| FeedsService.ClassificationExamples | src/app/services/feeds/feeds.service.ts:157-210 | sample readings: distance 0 unknown, 10 occupied, 16 free; gas 600/350/100 give danger/warning/success with their texts |
| AdafruitService.Intercept | src/app/api/services/adafruit/adafruit.service.ts:41-62 | 401 or 403 gives unauthorized, 429 gives rate limit, 404 gives not found for the URL (or ""); any other status gives an Adafruit IO error with the body's `error` if truthy, else the message; no response gives an Adafruit IO error with the message |
| AdafruitService.Through | src/app/api/services/adafruit/adafruit.service.ts:41-62 | successful calls pass unchanged; failures become errors whose message is the intercepted error's text and which carry no response status |
| AdafruitService.CreateBodyFor | src/app/api/services/adafruit/adafruit.service.ts:90-103 | name and key copied; description defaults to "" and unit to null when falsy; private visibility with history; disabled only when `enabled` is explicitly false |
| AdafruitService.CreateEnabledMatchesSchemaDefault | src/app/api/services/adafruit/adafruit.service.ts:98 | for a validated body, the `enabled` flag sent upstream equals the schema's default-true value |
| AdafruitService.BuildUpdateBody | src/app/api/services/adafruit/adafruit.service.ts:105-111 | the update body has `name` iff the name is truthy, and description, `unit_type` and enabled iff given, each with its value; no other fields |
| AdafruitService.BuildDataParams | src/app/api/services/adafruit/adafruit.service.ts:139-147 | the query always has the limit; `start_time` and `end_time` are present iff truthy, each with its value |
| AdafruitService.GetLastValue | src/app/api/services/adafruit/adafruit.service.ts:123-137 | success passes through; a failure with status 404 gives null; any other failure is rethrown unchanged |
| AdafruitService.LastValueNeverNullOnFailure | src/app/api/services/adafruit/adafruit.service.ts:129-136 | the error reaching getLastValue's catch never carries a response, so every upstream failure, 404 included, is rethrown and never becomes null |
| AdafruitService.ChartRequest | src/app/api/services/adafruit/adafruit.service.ts:172-181 | the chart request asks for 1000 points over the window that ends now and starts `hours` hours earlier |
| AdafruitService.ChartPoints | src/app/api/services/adafruit/adafruit.service.ts:183-187 | the chart keeps exactly the points whose parsed value is not NaN, mapped to chart points, and never more points than the data |
| AdafruitService.ChartPointsCount | src/app/api/services/adafruit/adafruit.service.ts:183-187 | the chart has as many points as there are plottable data points; if all are plottable it is the mapped data in order |
| AdafruitService.GetChartData | src/app/api/services/adafruit/adafruit.service.ts:172-188 | fetch failures propagate unchanged; on success the result is the chart conversion of the fetched window, one point per plottable data point |
| AdafruitService.ChartExample | src/app/api/services/adafruit/adafruit.service.ts:183-187 | of the values 1, "x" and "2.5" only the unparsable one is dropped |
| AdafruitService.Fulfilled | src/app/api/services/adafruit/adafruit.service.ts:193-206 | the summary lists, for a feed, its last value exactly when the lookup for that feed settled successfully |
| AdafruitService.FulfilledAllSucceed | src/app/api/services/adafruit/adafruit.service.ts:193-206 | when every lookup succeeds the summary has one entry per feed, in feed order |
| AdafruitService.AllLastData | src/app/api/services/adafruit/adafruit.service.ts:193-206 | a failed feed listing propagates; otherwise the summary is the fulfilled last-value lookups of the listed feeds, no longer than the list |
| AdafruitService.DefaultFeedsMatchConfig | src/app/api/services/adafruit/adafruit.service.ts:212-222 | the nine default feeds are the feed keys in order, with the configured names, descriptions and units |
| AdafruitService.Absent | src/app/api/services/adafruit/adafruit.service.ts:229-230 | a default feed is attempted iff its key is not among the existing keys |
| AdafruitService.Attempt | src/app/api/services/adafruit/adafruit.service.ts:231-237 | an attempt contributes one feed iff the create call succeeds, and that feed is the one the call returned; a failure is swallowed |
| AdafruitService.Created | src/app/api/services/adafruit/adafruit.service.ts:229-241 | the created feeds are exactly the feeds returned by the create calls that succeed, never more than attempted |
| AdafruitService.CreatedAllSucceed | src/app/api/services/adafruit/adafruit.service.ts:229-241 | when every create call succeeds, one feed is created per attempt |
| AdafruitService.CreateMissing | src/app/api/services/adafruit/adafruit.service.ts:227-243 | the loop returns the successful creations of the absent defaults, in order |
| AdafruitService.InitializeDefaultFeeds | src/app/api/services/adafruit/adafruit.service.ts:211-244 | a failed listing propagates; otherwise the created feeds are the successful creations of the nine defaults not already present |
| AdafruitService.BootstrapIdempotent | src/app/api/services/adafruit/adafruit.service.ts:224-243 | once the absent defaults exist, a second bootstrap attempts nothing |
| FeedsController.ListFailure | src/app/api/controllers/feeds/feeds.controller.ts:22-28 | unauthorized iff the message mentions 401 or 403; otherwise rate limit iff it mentions 429; otherwise an Adafruit IO error with the message |
| FeedsController.FeedLookupFailure | src/app/api/controllers/feeds/feeds.controller.ts:37-43 | not found iff the message mentions 404; otherwise unauthorized iff it mentions 401 or 403; otherwise an Adafruit IO error |
| FeedsController.DataAccessFailure | src/app/api/controllers/feeds/feeds.controller.ts:166-171 | not found iff the message mentions 404; otherwise an Adafruit IO error |
| FeedsController.CreateDataFailure | src/app/api/controllers/feeds/feeds.controller.ts:178-189 | not found, unauthorized, rate limit or data-creation failure, checked in that order |
| FeedsController.Guard | src/app/api/controllers/feeds/feeds.controller.ts:17-30 | successes pass through; a failure is replaced by the classification of its message |
| FeedsController.ClassificationOrderMatters | src/app/api/controllers/feeds/feeds.controller.ts:22-43 | a message mentioning both 404 and 401 counts as not found in lookups but as unauthorized in listings |
| FeedsController.DeleteFeed | src/app/api/controllers/feeds/feeds.controller.ts:93-107 | success acknowledges "Feed <key> deleted successfully"; failures are classified as in a feed lookup |
| FeedsController.DeleteDataPoint | src/app/api/controllers/feeds/feeds.controller.ts:204-215 | success acknowledges "Data point <id> deleted successfully"; failures are classified as data access |
| FeedsController.WithConfigDefaults | src/app/api/controllers/feeds/feeds.controller.ts:58-63 | for a configured key, falsy name, description and unit are taken from the configuration and truthy ones are kept; key and `enabled` are unchanged; an unconfigured key leaves the payload unchanged |
| FeedsController.ConfigDefaultsIdempotent | src/app/api/controllers/feeds/feeds.controller.ts:58-63 | filling in defaults twice is the same as once |
| FeedsController.FeedPayloadObject.ApplyConfigDefaults | src/app/api/controllers/feeds/feeds.controller.ts:58-63 | the payload object is updated in place to its defaulted value |
| FeedsController.ProbeMessage | src/app/api/controllers/feeds/feeds.controller.ts:49-56 | a probe that finds the feed raises the already-exists message; a failed probe yields its own message |
| FeedsController.CreateFeedFailure | src/app/api/controllers/feeds/feeds.controller.ts:66-75 | a message containing the already-exists text is rethrown as is; otherwise unauthorized if it mentions 401 or 403; otherwise creation failed |
| FeedsController.CreateFeedOutcome | src/app/api/controllers/feeds/feeds.controller.ts:47-76 | creation is attempted only after a not-found probe, with configuration defaults applied; a create failure is classified; the result is the created feed exactly when the attempted create succeeds |
| FeedsController.CreateFeed | src/app/api/controllers/feeds/feeds.controller.ts:47-76 | the method's result is the outcome above, and it updates the payload in place only when creation is attempted |
| FeedsController.CreateNeedsNotFoundProbe | src/app/api/controllers/feeds/feeds.controller.ts:49-56 | without a not-found probe the create call is never made and the result is an error |
| FeedsController.ExistingFeedConflicts | src/app/api/controllers/feeds/feeds.controller.ts:52-53 | an existing feed yields the already-exists error, when that text contains its key-less template |
| FeedsController.ExistingFeedConflictLost | src/app/api/controllers/feeds/feeds.controller.ts:52-75 | when the already-exists text does not contain its key-less template, an existing feed is reported as a creation failure |
| FeedsController.CreateFeedFailureKinds | src/app/api/controllers/feeds/feeds.controller.ts:66-75 | every create failure is a rethrown already-exists message, unauthorized, or creation failed |
| FeedsController.LastDataFailure | src/app/api/controllers/feeds/feeds.controller.ts:118-126 | a no-data message is rethrown as is; otherwise not found iff it mentions 404; otherwise an Adafruit IO error |
| FeedsController.GetLastData | src/app/api/controllers/feeds/feeds.controller.ts:110-127 | a present value is returned; a null value raises no-data and goes through the catch; a failure is classified |
| FeedsController.NoDataPassesThrough | src/app/api/controllers/feeds/feeds.controller.ts:113-122 | a null value surfaces as the no-data message itself |
| FeedsController.LastDataEntries | src/app/api/controllers/feeds/feeds.controller.ts:135-152 | one entry per feed in order, with key, name and configuration; a failed lookup gives a null value with "No data available"; a successful one gives its value and no error |
| FeedsController.GetAllLastData | src/app/api/controllers/feeds/feeds.controller.ts:129-160 | a failed listing becomes an Adafruit IO error; otherwise one entry per feed |
| FeedsController.SummariesAgreeOnSuccesses | src/app/api/controllers/feeds/feeds.controller.ts:129-160 | when every lookup succeeds, the controller's summary and the service's summary agree entry by entry on key and value |
| FeedsController.GetChartFeedData | src/app/api/controllers/feeds/feeds.controller.ts:218-238 | a failure is classified as data access; success reports key, hours, the points and their count, and the configured name and unit, or the key and "" when unconfigured |
| FeedsController.FeedsToCreate | src/app/api/controllers/feeds/feeds.controller.ts:246-256 | exactly the configured entries whose key is not present are to be created, each enabled |
| FeedsController.CreateEach | src/app/api/controllers/feeds/feeds.controller.ts:258-267 | the loop returns the successful creations in order, each through the full createFeed path |
| FeedsController.CreatedFeeds | src/app/api/controllers/feeds/feeds.controller.ts:258-267 | the created feeds are exactly the feeds returned by the createFeed calls that succeed, never more than the payloads |
| FeedsController.InitializeDefaultFeeds | src/app/api/controllers/feeds/feeds.controller.ts:241-276 | a failed listing becomes an Adafruit IO error; otherwise the report counts the existing and created feeds and totals them |
| FeedsController.NothingToCreateWhenComplete | src/app/api/controllers/feeds/feeds.controller.ts:246-256 | when all feed keys exist nothing is created |
| FeedsController.DefaultPayloadsAreComplete | src/app/api/controllers/feeds/feeds.controller.ts:246-256 | bootstrap payloads already carry their configuration, so defaulting changes nothing and they are sent enabled |
| FeedsController.CheckConnection | src/app/api/controllers/feeds/feeds.controller.ts:278-302 | connected iff both calls succeed, and then the feed count and username are reported; otherwise the unreachable or failed report with its error |
| FeedsRoute.MessageOrDefault | src/app/api/routes/feeds/feeds.route.ts:62 | an empty error message is replaced by the default internal error |
| FeedsRoute.ServerError | src/app/api/routes/feeds/feeds.route.ts:62 | a 500 reply with the message or the default |
| FeedsRoute.NotFoundReply | src/app/api/routes/feeds/feeds.route.ts:80-85 | 404 with the message iff it contains "not found"; otherwise a 500 |
| FeedsRoute.FeedChangeReply | src/app/api/routes/feeds/feeds.route.ts:146-153 | 404 for "not found", else 401 for "Unauthorized", else 500 |
| FeedsRoute.CreateFeedReply | src/app/api/routes/feeds/feeds.route.ts:108-115 | 409 for "already exists", else 401 for "Unauthorized", else 500 |
| FeedsRoute.CreateDataReply | src/app/api/routes/feeds/feeds.route.ts:309-318 | 404, 401, 429 or 500, checked in that order on "not found", "Unauthorized" and "rate limit" |
| FeedsRoute.LastDataReply | src/app/api/routes/feeds/feeds.route.ts:209-214 | 404 iff the message contains "not found" or "No data available"; otherwise 500 |
| FeedsRoute.FixedErrorRoute | src/app/api/routes/feeds/feeds.route.ts:32-51 | the connection and initialize routes answer 200 or a fixed 500 |
| FeedsRoute.ListRoute | src/app/api/routes/feeds/feeds.route.ts:56-64 | 200 with the feeds, or a 500 carrying the message |
| FeedsRoute.CreateFeedRoute | src/app/api/routes/feeds/feeds.route.ts:90-117 | a missing body is 400; a strictly invalid body is 400; otherwise the controller's result is 201 or mapped by the create-feed statuses |
| FeedsRoute.GetFeedRoute | src/app/api/routes/feeds/feeds.route.ts:67-87 | an invalid key is 400 without a controller call; otherwise 200 or the not-found mapping |
| FeedsRoute.UpdateFeedRoute | src/app/api/routes/feeds/feeds.route.ts:120-155 | invalid key 400, missing body 400, invalid body (unknown keys allowed) 400; otherwise 200 or the feed-change mapping |
| FeedsRoute.DeleteFeedRoute | src/app/api/routes/feeds/feeds.route.ts:158-180 | invalid key 400; otherwise 200 or the feed-change mapping |
| FeedsRoute.LastDataRoute | src/app/api/routes/feeds/feeds.route.ts:196-216 | invalid key 400; otherwise 200 or the last-data mapping |
| FeedsRoute.BoundedQuery | src/app/api/routes/feeds/feeds.route.ts:229-233 | a falsy parameter takes the default; a given one is accepted iff it parses within the bounds, and is then that number |
| FeedsRoute.DataLimit | src/app/api/routes/feeds/feeds.route.ts:229-233 | the limit defaults to 100 and must lie in 1..1000 |
| FeedsRoute.ChartHours | src/app/api/routes/feeds/feeds.route.ts:264-268 | the hours default to 24 and must lie in 1..720 |
| FeedsRoute.FeedDataRoute | src/app/api/routes/feeds/feeds.route.ts:219-251 | invalid key 400; a bad limit is 400 with the limit text; otherwise the query goes out with the accepted limit, and the reply is 200 or the not-found mapping |
| FeedsRoute.ChartRoute | src/app/api/routes/feeds/feeds.route.ts:254-281 | invalid key 400; bad hours 400 with the hours text; otherwise 200 or the not-found mapping |
| FeedsRoute.CreateDataRoute | src/app/api/routes/feeds/feeds.route.ts:284-320 | invalid key, missing body or invalid body give 400; otherwise 201 or the create-data mapping |
| FeedsRoute.CheckedUpdateDataPoint | src/app/api/routes/feeds/feeds.route.ts:327-348 | once `value` is read: invalid key 400; an undefined or null value is 400 with the value-required text; otherwise 200 or the not-found mapping |
| FeedsRoute.UpdateDataPointRoute | src/app/api/routes/feeds/feeds.route.ts:323-349 | as written: a request without a body is answered 500 before any check; with a body, invalid key 400, missing or null value 400, otherwise 200 or the not-found mapping |
| FeedsRoute.GuardedUpdateDataPointRoute | src/app/api/routes/feeds/feeds.route.ts:323-349 | with the body guarded: invalid key 400 and a missing body 400 with the value-required text; a request with a body is answered as written; 500 only from a failed controller call |
| FeedsRoute.BodylessUpdateAnswers500 | src/app/api/routes/feeds/feeds.route.ts:323-330 | for every key outside the nine feed keys, a body-less PUT is 500 as written and 400 when guarded |
| FeedsRoute.DeleteDataPointRoute | src/app/api/routes/feeds/feeds.route.ts:352-372 | invalid key 400; otherwise 200 or the not-found mapping |
| FeedsRoute.InvalidKeyNeverReachesController | src/app/api/routes/feeds/feeds.route.ts:67-372 | every keyed route answers 400 to a key outside the nine feed keys, whatever the rest of the request; the PUT of a data point only when the request has a body, its guarded form always |
| FeedsRoute.StatusPrecedence | src/app/api/routes/feeds/feeds.route.ts:109-111 | a message with both "not found" and "Unauthorized" is 404 on change and data routes but 401 on create-feed |
| FeedsRoute.DistinctiveStatuses | src/app/api/routes/feeds/feeds.route.ts:80-318 | 409 comes only from create-feed and 429 only from create-data; "No data available" without "not found" is 404 only on the last-data route |
| SensorData.SlotOf | src/app/services/sensor-data/sensor-data.service.ts:117-153 | exactly the seven polled keys have a slot, and that slot is the key's position |
| SensorData.PolledKeysWellFormed | src/app/services/sensor-data/sensor-data.service.ts:32-50 | the polled keys are distinct feed keys, each with a sensor configuration, and NFC and servo are not polled |
| SensorData.SignalFor | src/app/services/sensor-data/sensor-data.service.ts:86-115 | no data gives value 0, "Datos no disponibles", secondary, the current time and the no-data error; data gives the parsed value, its status text and colour, and its creation time |
| SensorData.Fetched | src/app/services/sensor-data/sensor-data.service.ts:70-76 | a failed fetch counts as no data |
| SensorData.SensorDataService.constructor | src/app/services/sensor-data/sensor-data.service.ts:24-30 | all seven signals start empty |
| SensorData.SensorDataService.GetSensorData | src/app/services/sensor-data/sensor-data.service.ts:143-153 | a polled key reads its slot; any other key reads nothing |
| SensorData.SensorDataService.SetSensorData | src/app/services/sensor-data/sensor-data.service.ts:117-141 | only the key's own slot changes, to the reading; unknown keys change nothing |
| SensorData.SensorDataService.UpdateSensorSignal | src/app/services/sensor-data/sensor-data.service.ts:86-115 | the key's slot becomes its signal and nothing else changes |
| SensorData.SensorDataService.UpdateAllSensorData | src/app/services/sensor-data/sensor-data.service.ts:68-84 | after a poll every slot holds the signal of its own fetch, failures counting as no data |
| Dashboard.ParsedLastValue | src/app/views/dashboard/dashboard.component.ts:142-150 | a value is stored iff the feed has a last value whose `Number` is finite, and it is that number |
| Dashboard.UpdatedStamp | src/app/views/dashboard/dashboard.component.ts:151-153 | the timestamp is stored iff the feed has one |
| Dashboard.MaxPresent | src/app/views/dashboard/dashboard.component.ts:75-86 | null iff no timestamp is present; otherwise a present timestamp no smaller than any other |
| Dashboard.DashboardView.constructor | src/app/views/dashboard/dashboard.component.ts:30-72 | every reading and timestamp starts null |
| Dashboard.DashboardView.LatestUpdate | src/app/views/dashboard/dashboard.component.ts:74-87 | null iff none of the five environmental timestamps is present; otherwise the greatest of them, taking each stamp as the instant it names; ultrasonic timestamps never count |
| Dashboard.DashboardView.Load | src/app/views/dashboard/dashboard.component.ts:142-158 | a load sets only its own sensor's value and timestamp, or clears both on failure; ultrasonic loads leave the latest update unchanged |
| Dashboard.SortByTimePermutes | src/app/views/dashboard/dashboard.component.ts:287-289 | sorting is a permutation of the points |
| Dashboard.SortByTimeSorted | src/app/views/dashboard/dashboard.component.ts:287-289 | the sorted points are in ascending time order |
| Dashboard.SortByTimeStable | src/app/views/dashboard/dashboard.component.ts:287-289 | points with equal timestamps keep their relative order |
| Dashboard.LastIndexInWindow | src/app/views/dashboard/dashboard.component.ts:300-313 | the position of a point inside the window with no later point inside it, or -1 |
| Dashboard.LastInWindow | src/app/views/dashboard/dashboard.component.ts:300-313 | none iff no point is inside the window; otherwise a point of the data inside the window after which no point is inside it |
| Dashboard.PrevIsLastInWindow | src/app/views/dashboard/dashboard.component.ts:300-313 | after the scan, `prevHasValue` is true iff the last point inside the window had a positive value |
| Dashboard.CountsAreCappedDetections | src/app/views/dashboard/dashboard.component.ts:300-313 | each hour's count is the number of rising edges in that hour, capped at 20 |
| Dashboard.CountsInBuckets | src/app/views/dashboard/dashboard.component.ts:292-313 | every counted hour lies in the 24-hour window, starts on the hour, and has a count between 1 and 20 |
| Dashboard.EmittedShape | src/app/views/dashboard/dashboard.component.ts:316-328 | emitted buckets are distinct window hours in increasing order, each with its positive count, and every hour with a count is emitted |
| Dashboard.HourLabel | src/app/views/dashboard/dashboard.component.ts:323 | a label is two digits, the first 0-2, followed by ":00" |
| Dashboard.HourLabelDigits | src/app/views/dashboard/dashboard.component.ts:319-323 | the label's two digits read as the bucket's hour of day, zero-padded |
| Dashboard.Labels | src/app/views/dashboard/dashboard.component.ts:316-328 | one label per emitted bucket, in order |
| Dashboard.Counts | src/app/views/dashboard/dashboard.component.ts:316-328 | one value per emitted bucket, in order |
| Dashboard.EmptySeries | src/app/views/dashboard/dashboard.component.ts:332-334 | the empty series has no labels and no values |
| Dashboard.BuildUsageSeries | src/app/views/dashboard/dashboard.component.ts:281-329 | the two loops compute the specified usage series: empty for missing or empty data, otherwise the sorted, windowed, capped rising-edge counts per hour |
| Dashboard.CountDetections | src/app/views/dashboard/dashboard.component.ts:297-313 | the counting loop over the sorted points yields the counts of the specified scan, with points outside the window skipped and `prevHasValue` kept |
| Dashboard.EmitBuckets | src/app/views/dashboard/dashboard.component.ts:316-328 | the bucket loop yields one label and one value per hour of the window with a positive count, in hour order |
| Dashboard.UsageSeriesBounds | src/app/views/dashboard/dashboard.component.ts:281-329 | the series has as many labels as values, at most 24, and each value is between 1 and 20 |
| Dashboard.EmittedCountsAreCappedDetections | src/app/views/dashboard/dashboard.component.ts:300-328 | each emitted value is its hour's rising-edge count capped at 20 |
| Dashboard.DetectedHoursAreEmitted | src/app/views/dashboard/dashboard.component.ts:316-328 | every window hour with a detection appears in the series |
| Dashboard.LoadUsageFor | src/app/views/dashboard/dashboard.component.ts:265-279 | a successful fetch is drawn as its usage series; a failed one as the empty series |
| NoiseView.BuildRows | src/app/views/noise/noise.view.ts:65-71 | one row per data point, in order, numbered from 1 |
| NoiseView.RawData | src/app/views/noise/noise.view.ts:65-71 | the raw data kept by each row, in order |
| NoiseView.RowsKeepTheirData | src/app/views/noise/noise.view.ts:65-71 | building rows and reading back their raw data gives the original data |
| NoiseView.ReplaceById | src/app/views/noise/noise.view.ts:109-120 | rows with the edited id are refreshed from the update and every other row is untouched |
| NoiseView.RemoveById | src/app/views/noise/noise.view.ts:133-134 | exactly the rows with another id remain |
| NoiseView.RemoveByIdIdempotent | src/app/views/noise/noise.view.ts:133-134 | deleting the same id twice is the same as once |
| NoiseView.ReplaceKeepsLayout | src/app/views/noise/noise.view.ts:109-120 | an edit keeps every row's index and id |
| NoiseView.NoiseTable.constructor | src/app/views/noise/noise.view.ts:30 | the table starts without rows or alerts |
| NoiseView.NoiseTable.LoadRows | src/app/views/noise/noise.view.ts:62-78 | fetched data becomes the rows; missing data or a failure empties the table |
| NoiseView.NoiseTable.OnEdit | src/app/views/noise/noise.view.ts:80-129 | no entry does nothing; NaN raises the invalid-value alert without calling the API; otherwise the update is called, and on success the row is replaced with a success alert, on failure the rows stay with an error alert |
| NoiseView.NoiseTable.OnDelete | src/app/views/noise/noise.view.ts:131-141 | a successful delete drops the row's id with a success alert; a failure keeps the rows with an error alert |
| LoaderInterceptor.Lookup | src/app/services/loader/loader.interceptor.ts:66-67 | the message stored under exactly the given key, or none iff no entry has that key |
| LoaderInterceptor.UrlMessage | src/app/services/loader/loader.interceptor.ts:60-64 | no message iff no path entry of the table occurs in the URL; the method entries are never matched against the URL |
| LoaderInterceptor.FindUrlMessage | src/app/services/loader/loader.interceptor.ts:60-64 | the loop over the table in order returns the specified URL message |
| LoaderInterceptor.MethodEntry | src/app/services/loader/loader.interceptor.ts:16-18 | looking up POST, PUT or DELETE by method name yields that method's own text |
| LoaderInterceptor.LoadingMessage | src/app/services/loader/loader.interceptor.ts:59-72 | the message is never empty |
| LoaderInterceptor.GetLoadingMessage | src/app/services/loader/loader.interceptor.ts:59-72 | the lookup loop returns the specified message |
| LoaderInterceptor.FirstUrlMatchWins | src/app/services/loader/loader.interceptor.ts:60-64 | the message is that of the first table entry whose path occurs in the URL |
| LoaderInterceptor.MedicinesRequiredTakesPrecedence | src/app/services/loader/loader.interceptor.ts:10-11 | a URL with "/medicinesRequired" also matches "/medicines", yet gets the required-medicines text because that entry comes first |
| LoaderInterceptor.MethodFallback | src/app/services/loader/loader.interceptor.ts:61-71 | without a path match, POST, PUT and DELETE get their texts, even when the URL contains those words; a method without an entry gets "Procesando solicitud..." |
| LoaderInterceptor.Interceptor.constructor | src/app/services/loader/loader.interceptor.ts:6 | the counter starts at 0 with no loader calls |
| LoaderInterceptor.Interceptor.Begin | src/app/services/loader/loader.interceptor.ts:24-33 | the counter goes up by one; show is called iff it becomes 1, otherwise the message is only updated |
| LoaderInterceptor.Reported | src/app/services/loader/loader.interceptor.ts:36-46 | at most one loader call per stream event, none exactly for a non-response event, and any call is a non-empty message update |
| LoaderInterceptor.Interceptor.Observe | src/app/services/loader/loader.interceptor.ts:36-46 | a full response updates to "Completado", an error to "Error en la solicitud", other events change nothing |
| LoaderInterceptor.Interceptor.Finalize | src/app/services/loader/loader.interceptor.ts:47-55 | the counter goes down by one; a hide is scheduled iff it reaches 0 |
| LoaderInterceptor.Interceptor.Request | src/app/services/loader/loader.interceptor.ts:21-57 | a whole request leaves the counter unchanged; a request made while idle shows and then schedules a hide; one made while busy schedules no hide |
| LoaderInterceptor.After | src/app/services/loader/loader.interceptor.ts:24-54 | a start shows the indicator when the counter becomes 1; an end leaves visibility alone; a firing timer hides unless the counter is re-checked and non-zero |
| LoaderInterceptor.HiddenWhileRequestActive | src/app/services/loader/loader.interceptor.ts:50-54 | as written: start, end, start, timer leaves one request in flight with the indicator hidden |
| LoaderInterceptor.GuardedVisibleWhileActive | src/app/services/loader/loader.interceptor.ts:50-54 | with the counter re-checked when the timer fires, the indicator is visible whenever a request is in flight, for every interleaving |
| ThreeDots.NavigationTarget | src/app/components/threeDots/threeDots.component.ts:57-62 | the target is the route iff the user is signed in or the route is "/", "/login" or "/register"; otherwise "/login"; a signed-out user only ever reaches public routes |
| ThreeDots.MenuItemsNeedLogin | src/app/components/threeDots/threeDots.component.ts:25-33 | every menu item sends a signed-out user to "/login" and a signed-in user to its own route |
| ThreeDots.ThreeDotsMenu.constructor | src/app/components/threeDots/threeDots.component.ts:22-23 | the menu starts closed and the user signed out |
| ThreeDots.ThreeDotsMenu.Init | src/app/components/threeDots/threeDots.component.ts:35-47 | signed in iff the token yields a user; a failed lookup means signed out |
| ThreeDots.ThreeDotsMenu.ToggleMenu | src/app/components/threeDots/threeDots.component.ts:49-51 | the menu flips and nothing else changes, so two toggles restore it |
| ThreeDots.ThreeDotsMenu.CloseMenu | src/app/components/threeDots/threeDots.component.ts:53-55 | the menu is closed and nothing else changes |
| ThreeDots.ThreeDotsMenu.OnBackdropClick | src/app/components/threeDots/threeDots.component.ts:66-68 | a backdrop click closes the menu and nothing else changes |
| ThreeDots.ThreeDotsMenu.NavigateTo | src/app/components/threeDots/threeDots.component.ts:57-64 | the router receives the guarded target and the menu always ends closed |

## Left out

- HTTP transport is not modelled: axios, Express wiring, Angular `HttpClient`, headers, credentials and the 15 s timeout. Calls are parameters carrying their outcomes.
- The error constant texts are not part of this model (errors.constant.ts). They are a parameter record. The create-feed conflict and the last-data no-data pass-through are proved under stated assumptions about those texts.
- The Adafruit IO service's constructor, which checks credentials, and the singleton are not modelled. Neither is `testConnection`'s logging; its outcome is a parameter.
- Concurrency is modelled sequentially: `Promise.all`, `Promise.allSettled` and the 30-second polling timers. Each lookup settles independently, so order does not affect the results.
- JavaScript number parsing and formatting are not modelled. `parseFloat`, `Number` and `parseInt` are parameters or are carried with the data. `formatSensorValue` and `toFixed` are abstract, so `FormattedValue` keeps the number.
- The local clock, time zones and `toLocaleString`/`formatDate` are not modelled. Timestamps are integer milliseconds and hours are floored in UTC. The clock is a parameter.
- Joi's type conversion is not modelled (for example `"true"` to true, or numeric strings). Bodies are given already typed as JSON values. Joi's error messages are represented by one `ValidationError`.
- Chart.js rendering, Angular signals and change detection, `console` output, and `setTimeout` beyond the scheduled-hide record are not modelled.
- Authentication (`getCurrentUserFromToken`) is not modelled; its result is a parameter. The other views (air quality, climate, chargers, transit, landing), `ngOnInit` of the noise view and the UI glue are also out of scope.
- AdafruitService.GetChartData: drops only NaN values, as the code does, so infinities are kept. A "finite values only" reading of the chart contract would be stronger than the code.
- FeedsRoute.ChartRoute: the `hours` query travels as an integer. The service's `timeRange` string is not modelled.
- Dashboard.DashboardView.LatestUpdate: the component stores each stamp as `new Date(updated_at).toLocaleString()` (dashboard.component.ts:151-152, 439-441) and re-parses that text with `new Date(d).getTime()` (line 83). The model keeps the instants themselves, so its maximum holds only where the locale text parses back to the same instant. Milliseconds are always lost. In a day-first locale such as es-ES the text may not parse at all, which gives NaN and "Invalid Date", or may swap day and month when the day is 12 or less. JavaScript leaves that parse to the implementation.
- FeedsController.CreateFeedOutcome: the controller validates a typed payload. Untyped body fields that Joi would strip are not represented.
- LoaderInterceptor.LoadingMessage: method names that are members of `Object.prototype` (such as "constructor") are treated as absent from the table.
- FeedConstants.ConfigFor: `FEED_CONFIG[key]` for a key that names a member of `Object.prototype` (such as "constructor") yields that member in JavaScript, not undefined; the model gives no configuration for it.
- FeedsController.LastDataEntries: an upstream feed keyed with an `Object.prototype` member name gets that member instead of null from `FEED_CONFIG[feed.key] || null`; the model gives it no configuration.
- FeedSchemas.StringWithin: lengths are counted in Unicode scalar values, while Joi's `.min` and `.max` count UTF-16 code units, so a string with characters outside the Basic Multilingual Plane can pass here and fail in Joi (51 emoji are 102 code units against a maximum of 100).
- FeedSchemas.FeedSchemaFieldRules: its length bounds inherit the measure of StringWithin, in Unicode scalar values rather than UTF-16 code units.

## Findings

| source | as written | input that shows it | evidently intended | confidence | as-written member | corrected member |
|---|---|---|---|---|---|---|
| src/app/services/loader/loader.interceptor.ts:50-54 | the hide queued when the counter reaches 0 runs 200 ms later without re-checking the counter | request A ends (hide queued), request B starts within 200 ms (counter 1, show), the timer fires: B is in flight with the indicator hidden | the indicator stays visible while any request is in flight | medium, not executed; assumes `LoaderService.hide` clears the indicator unconditionally (loader.service.ts is not part of this model) | LoaderInterceptor.HiddenWhileRequestActive | LoaderInterceptor.GuardedVisibleWhileActive |
| src/app/api/routes/feeds/feeds.route.ts:323-330 | `const { value } = req.body` runs before the key check and outside the try block, unlike the body guards of the other handlers | a PUT to `/no-such-feed/data/1` (or any key outside the nine) with no JSON body: `req.body` is undefined, the destructuring throws, and Express's default error handler answers 500 instead of the 400 every other keyed handler gives | an invalid key is 400 and a missing body is a 400 validation answer, as in the sibling handlers | medium, not executed; assumes Express 5 (the `app.listen` error callback at server.ts:46), which leaves `req.body` undefined without a JSON body and forwards a rejected async handler to its error handler | FeedsRoute.BodylessUpdateAnswers500 | FeedsRoute.GuardedUpdateDataPointRoute |
