/** The Joi schemas of the backend (src/app/api/joi/feeds/feeds.joi.ts)
    as predicates over request payloads. */
module FeedSchemas {
  import opened Common
  import opened FeedConstants

  /** One field of a JSON request body: absent, null, a string, a number,
      a boolean, or an array/object. */
  datatype Json = Missing | Null | Text(s: string) | Num(n: real) | Flag(b: bool) | Structured

  /** A feed body as received; `hasUnknownKeys` says whether it carries
      properties other than the five the schema names. */
  datatype RawFeedPayload = RawFeedPayload(
    name: Json, key: Json, description: Json, unit: Json, enabled: Json, hasUnknownKeys: bool)

  /** A data-point body as received. */
  datatype RawDataPayload = RawDataPayload(
    value: Json, lat: Json, lon: Json, ele: Json, hasUnknownKeys: bool)

  /** `Joi.string()` rejects the empty string unless `.allow('')` is given. */
  predicate StringWithin(j: Json, min: nat, max: nat, allowEmpty: bool)
  {
    j.Text? && (j.s == "" ==> allowEmpty) && (j.s != "" ==> min <= |j.s| <= max)
  }

  /** An optional number field with inclusive bounds. */
  predicate OptionalNumberWithin(j: Json, lo: real, hi: real)
  {
    j.Missing? || (j.Num? && lo <= j.n <= hi)
  }

  /** feedKeySchema: a required string that is one of FEED_KEYS' values. */
  predicate FeedKeySchemaValid(key: string)
  {
    ParseFeedKey(key).Some?
  }

  /** feedSchema, validated with or without `allowUnknown`. */
  predicate FeedSchemaValid(p: RawFeedPayload, allowUnknown: bool)
  {
    && StringWithin(p.name, 1, 100, false)
    && p.key.Text? && FeedKeySchemaValid(p.key.s)
    && (p.description.Missing? || StringWithin(p.description, 0, 500, true))
    && (p.unit.Missing? || StringWithin(p.unit, 0, 20, true))
    && (p.enabled.Missing? || p.enabled.Flag?)
    && (allowUnknown || !p.hasUnknownKeys)
  }

  /** createDataSchema: a number, or a non-empty string of at most 255
      characters, with optional bounded coordinates. */
  predicate CreateDataSchemaValid(p: RawDataPayload)
  {
    && (p.value.Num? || StringWithin(p.value, 1, 255, false))
    && OptionalNumberWithin(p.lat, -90.0, 90.0)
    && OptionalNumberWithin(p.lon, -180.0, 180.0)
    && (p.ele.Missing? || p.ele.Num?)
    && !p.hasUnknownKeys
  }

  /** The value of `enabled` after validation: `.default(true)` fills in an absent flag. */
  function ValidatedEnabled(p: RawFeedPayload): (b: bool)
    requires FeedSchemaValid(p, true)
    ensures p.enabled.Missing? ==> b
    ensures p.enabled.Flag? ==> b == p.enabled.b
  {
    if p.enabled.Flag? then p.enabled.b else true
  }

  /** A typed feed payload (FeedPayload / Partial<FeedPayload> of the models). */
  datatype FeedPayload = FeedPayload(
    name: Option<string>, key: string, description: Option<string>, unit: Option<string>, enabled: Option<bool>)

  function OptText(j: Json): Option<string>
  {
    if j.Text? then Some(j.s) else None
  }

  /** The body a route hands to the controller once feedSchema accepted it:
      the same object, so `enabled` stays absent when the client left it out. */
  function ToFeedPayload(p: RawFeedPayload): (f: FeedPayload)
    requires FeedSchemaValid(p, true)
    ensures f.name.Some? && 1 <= |f.name.value| <= 100
    ensures ParseFeedKey(f.key).Some?
    ensures f.description.Some? ==> |f.description.value| <= 500
    ensures f.unit.Some? ==> |f.unit.value| <= 20
    ensures f.enabled.Some? <==> p.enabled.Flag?
    ensures f.enabled.Some? ==> f.enabled.value == p.enabled.b
    ensures f.name == Some(p.name.s) && f.key == p.key.s
    ensures p.description.Missing? ==> f.description.None?
    ensures p.description.Text? ==> f.description == Some(p.description.s)
    ensures p.unit.Missing? ==> f.unit.None?
    ensures p.unit.Text? ==> f.unit == Some(p.unit.s)
  {
    FeedPayload(OptText(p.name), p.key.s, OptText(p.description), OptText(p.unit),
                if p.enabled.Flag? then Some(p.enabled.b) else None)
  }

  /** A feed key is accepted exactly when it is one of the nine FEED_KEYS values. */
  lemma FeedKeySchemaAcceptsExactlyFeedKeys(key: string)
    ensures FeedKeySchemaValid(key) <==> key in FeedKeyValues()
  {
    ParseFeedKeyExactlyFeedKeys(key);
  }

  /** The name is required and between 1 and 100 characters; description
      and unit may be absent or empty but are capped at 500 and 20. */
  lemma FeedSchemaFieldRules(p: RawFeedPayload, allowUnknown: bool)
    requires FeedSchemaValid(p, allowUnknown)
    ensures p.name.Text? && 1 <= |p.name.s| <= 100
    ensures p.description.Missing? || (p.description.Text? && |p.description.s| <= 500)
    ensures p.unit.Missing? || (p.unit.Text? && |p.unit.s| <= 20)
    ensures p.enabled.Missing? || p.enabled.Flag?
  {
  }

  /** A strict validation accepts a subset of what a lenient one accepts,
      and the two differ only on unknown properties. */
  lemma StrictImpliesLenient(p: RawFeedPayload)
    ensures FeedSchemaValid(p, false) ==> FeedSchemaValid(p, true)
    ensures FeedSchemaValid(p, true) && !p.hasUnknownKeys ==> FeedSchemaValid(p, false)
  {
  }

  /** Coordinates: latitude in [-90, 90], longitude in [-180, 180], any
      elevation; a string value is accepted up to 255 characters. */
  lemma DataSchemaFieldRules(p: RawDataPayload)
    requires CreateDataSchemaValid(p)
    ensures p.value.Num? || (p.value.Text? && 1 <= |p.value.s| <= 255)
    ensures p.lat.Num? ==> -90.0 <= p.lat.n <= 90.0
    ensures p.lon.Num? ==> -180.0 <= p.lon.n <= 180.0
    ensures !p.value.Missing? && !p.value.Null?
  {
  }
}
