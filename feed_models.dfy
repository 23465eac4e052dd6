/** Shapes of the records exchanged with the telemetry service
    (src/app/api/models/feeds/feeds.d.ts and the front end's FeedData/Feed).
    Timestamps are integer milliseconds; a textual value carries what the
    two JavaScript parsers make of it, since number parsing is not modelled. */
module FeedModels {
  import opened Common

  /** A reading's value: a JSON number, or a string together with the results
      of `parseFloat(text)` and `Number(text)`. */
  datatype DataValue = NumValue(n: real) | TextValue(text: string, asFloat: Number, asNumber: Number)

  /** `parseFloat(value.toString())` / `typeof v === 'number' ? v : parseFloat(v)` */
  function ParseFloatOf(v: DataValue): Number
  {
    match v
    case NumValue(n) => Finite(n)
    case TextValue(_, f, _) => f
  }

  /** `Number(value)` */
  function NumberOf(v: DataValue): Number
  {
    match v
    case NumValue(n) => Finite(n)
    case TextValue(_, _, n) => n
  }

  /** One data point of a feed. */
  datatype DataPoint = DataPoint(id: string, value: DataValue, createdAt: int)

  /** A feed as listed by the service; only the fields the core reads. */
  datatype Feed = Feed(key: string, name: string, lastValue: Option<DataValue>, updatedAt: Option<int>)

  /** The keys of a list of feeds, as a set. */
  function KeySet(feeds: seq<Feed>): (ks: set<string>)
    ensures forall i :: 0 <= i < |feeds| ==> feeds[i].key in ks
    ensures forall k :: k in ks ==> exists i :: 0 <= i < |feeds| && feeds[i].key == k
  {
    set i | 0 <= i < |feeds| :: feeds[i].key
  }
}
