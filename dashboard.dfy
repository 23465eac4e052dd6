/** The dashboard view (src/app/views/dashboard/dashboard.component.ts):
    the latest-reading slots its loaders fill, the "last updated" summary,
    and the hourly usage series drawn for the two parking chargers.
    Timestamps are integer milliseconds in UTC; the clock is a parameter. */
module Dashboard {
  import opened Common
  import opened FeedModels

  // ===== Latest readings =====

  /** The seven readings the view shows. */
  datatype Sensor = Gas | Temp | Humidity | Sound | Motion | Ul1 | Ul2

  function SensorFeedKey(s: Sensor): string
  {
    match s
    case Gas => "gas-sensor"
    case Temp => "temperature"
    case Humidity => "humidity"
    case Sound => "sound-sensor"
    case Motion => "motion-detector"
    case Ul1 => "ultrasonic-distance"
    case Ul2 => "ultrasonic-distance2"
  }

  /** `Number(last_value)` when present, kept only if finite. */
  function ParsedLastValue(feed: Option<Feed>): (v: Option<real>)
    ensures v.Some? <==> feed.Some? && feed.value.lastValue.Some? && NumberOf(feed.value.lastValue.value).Finite?
    ensures v.Some? ==> NumberOf(feed.value.lastValue.value) == Finite(v.value)
  {
    if feed.Some? && feed.value.lastValue.Some? && NumberOf(feed.value.lastValue.value).Finite?
    then Some(NumberOf(feed.value.lastValue.value).v)
    else None
  }

  /** `updated_at` when present. */
  function UpdatedStamp(feed: Option<Feed>): (t: Option<int>)
    ensures t.Some? <==> feed.Some? && feed.value.updatedAt.Some?
    ensures t.Some? ==> t == feed.value.updatedAt
  {
    if feed.Some? then feed.value.updatedAt else None
  }

  /** The largest of the present timestamps; None when none is present. */
  function MaxPresent(ts: seq<Option<int>>): (m: Option<int>)
    ensures m.None? <==> forall i :: 0 <= i < |ts| ==> ts[i].None?
    ensures m.Some? ==> exists i :: 0 <= i < |ts| && ts[i] == m
    ensures m.Some? ==> forall i :: 0 <= i < |ts| && ts[i].Some? ==> ts[i].value <= m.value
  {
    if ts == [] then None
    else
      var rest := MaxPresent(ts[1..]);
      assert forall i :: 1 <= i < |ts| ==> ts[i] == ts[1..][i - 1];
      if ts[0].None? then rest
      else if rest.None? || rest.value <= ts[0].value then ts[0]
      else rest
  }

  class DashboardView {
    var values: map<Sensor, Option<real>>
    var updatedAt: map<Sensor, Option<int>>

    predicate Valid()
      reads this
    {
      forall s: Sensor :: s in values && s in updatedAt
    }

    /** Every reading starts empty. */
    constructor ()
      ensures Valid()
      ensures forall s: Sensor :: values[s].None? && updatedAt[s].None?
    {
      values := map[Gas := None, Temp := None, Humidity := None, Sound := None,
                    Motion := None, Ul1 := None, Ul2 := None];
      updatedAt := map[Gas := None, Temp := None, Humidity := None, Sound := None,
                       Motion := None, Ul1 := None, Ul2 := None];
      new;
      forall s: Sensor
        ensures s in values && s in updatedAt && values[s].None? && updatedAt[s].None?
      {
        match s
        case Gas =>
        case Temp =>
        case Humidity =>
        case Sound =>
        case Motion =>
        case Ul1 =>
        case Ul2 =>
      }
    }

    /** latestUpdate: the newest of the five environmental timestamps. */
    function LatestUpdate(): (m: Option<int>)
      requires Valid()
      reads this
      ensures m.None? <==> updatedAt[Gas].None? && updatedAt[Temp].None? && updatedAt[Humidity].None?
                           && updatedAt[Sound].None? && updatedAt[Motion].None?
      ensures m.Some? ==> exists s: Sensor :: s != Ul1 && s != Ul2 && updatedAt[s] == m
      ensures m.Some? ==> forall s: Sensor :: s != Ul1 && s != Ul2 && updatedAt[s].Some? ==> updatedAt[s].value <= m.value
    {
      var ts := [updatedAt[Gas], updatedAt[Temp], updatedAt[Humidity], updatedAt[Sound], updatedAt[Motion]];
      assert ts[0] == updatedAt[Gas] && ts[1] == updatedAt[Temp] && ts[2] == updatedAt[Humidity]
             && ts[3] == updatedAt[Sound] && ts[4] == updatedAt[Motion];
      var m := MaxPresent(ts);
      assert m.Some? ==> forall i :: 0 <= i < 5 && ts[i].Some? ==> ts[i].value <= m.value;
      assert forall s: Sensor :: s != Ul1 && s != Ul2 ==>
               updatedAt[s] == ts[match s case Gas => 0 case Temp => 1 case Humidity => 2 case Sound => 3 case _ => 4];
      m
    }

    /** One `load*` method: store the parsed value and the timestamp of the
        fetched feed, or clear both when the fetch fails; nothing else changes. */
    method Load(sensor: Sensor, fetched: Result<Option<Feed>, string>)
      requires Valid()
      modifies this
      ensures Valid()
      ensures fetched.Ok? ==> values == old(values)[sensor := ParsedLastValue(fetched.value)]
                              && updatedAt == old(updatedAt)[sensor := UpdatedStamp(fetched.value)]
      ensures fetched.Err? ==> values == old(values)[sensor := None] && updatedAt == old(updatedAt)[sensor := None]
      ensures sensor == Ul1 || sensor == Ul2 ==> LatestUpdate() == old(LatestUpdate())
    {
      match fetched
      case Ok(feed) =>
        values := values[sensor := ParsedLastValue(feed)];
        updatedAt := updatedAt[sensor := UpdatedStamp(feed)];
      case Err(_) =>
        values := values[sensor := None];
        updatedAt := updatedAt[sensor := None];
    }
  }

  // ===== Usage series: sorting =====

  /** A chart point as the view receives it: `value` is None when it is not
      a JavaScript number. */
  datatype UsagePoint = UsagePoint(timestamp: int, value: Option<Number>)

  predicate SortedByTime(s: seq<UsagePoint>)
  {
    forall i, j :: 0 <= i < j < |s| ==> s[i].timestamp <= s[j].timestamp
  }

  /** Insert after every point that is not later. */
  function InsertByTime(s: seq<UsagePoint>, x: UsagePoint): (r: seq<UsagePoint>)
    ensures |r| == |s| + 1
  {
    if s == [] then [x]
    else if s[0].timestamp > x.timestamp then [x] + s
    else
      assert s == [s[0]] + s[1..];
      [s[0]] + InsertByTime(s[1..], x)
  }

  /** The sort with a comparator on timestamps, which is stable. */
  function SortByTime(s: seq<UsagePoint>): (r: seq<UsagePoint>)
    ensures |r| == |s|
  {
    if s == [] then []
    else
      assert s == s[..|s| - 1] + [s[|s| - 1]];
      InsertByTime(SortByTime(s[..|s| - 1]), s[|s| - 1])
  }

  lemma {:induction false} InsertPermutes(s: seq<UsagePoint>, x: UsagePoint)
    ensures multiset(InsertByTime(s, x)) == multiset(s) + multiset{x}
  {
    if s != [] && s[0].timestamp <= x.timestamp {
      InsertPermutes(s[1..], x);
      assert s == [s[0]] + s[1..];
      assert InsertByTime(s, x) == [s[0]] + InsertByTime(s[1..], x);
    }
  }

  /** Sorting is a permutation of the points. */
  lemma {:induction false} SortByTimePermutes(s: seq<UsagePoint>)
    ensures multiset(SortByTime(s)) == multiset(s)
  {
    if s != [] {
      var init := s[..|s| - 1];
      SortByTimePermutes(init);
      InsertPermutes(SortByTime(init), s[|s| - 1]);
      assert s == init + [s[|s| - 1]];
    }
  }

  /** Inserting keeps a lower bound that the point and the sequence share. */
  lemma {:induction false} InsertKeepsLowerBound(s: seq<UsagePoint>, x: UsagePoint, lo: int)
    requires forall k :: 0 <= k < |s| ==> lo <= s[k].timestamp
    requires lo <= x.timestamp
    ensures forall k :: 0 <= k < |InsertByTime(s, x)| ==> lo <= InsertByTime(s, x)[k].timestamp
  {
    if s != [] && s[0].timestamp <= x.timestamp {
      var r := InsertByTime(s, x);
      var tail := InsertByTime(s[1..], x);
      assert r == [s[0]] + tail;
      assert forall k :: 0 <= k < |s[1..]| ==> s[1..][k] == s[k + 1];
      InsertKeepsLowerBound(s[1..], x, lo);
      assert forall k :: 1 <= k < |r| ==> r[k] == tail[k - 1];
    }
  }

  lemma {:induction false} InsertSorted(s: seq<UsagePoint>, x: UsagePoint)
    requires SortedByTime(s)
    ensures SortedByTime(InsertByTime(s, x))
  {
    if s != [] && s[0].timestamp <= x.timestamp {
      SortedTail(s);
      InsertSorted(s[1..], x);
      var r := InsertByTime(s, x);
      var tail := InsertByTime(s[1..], x);
      assert r == [s[0]] + tail;
      forall k | 0 <= k < |s[1..]|
        ensures s[0].timestamp <= s[1..][k].timestamp
      {
        assert s[1..][k] == s[k + 1];
      }
      InsertKeepsLowerBound(s[1..], x, s[0].timestamp);
      forall i, j | 0 <= i < j < |r|
        ensures r[i].timestamp <= r[j].timestamp
      {
        assert r[j] == tail[j - 1];
        if i > 0 {
          assert r[i] == tail[i - 1];
        }
      }
    }
  }

  lemma {:induction false} SortByTimeSorted(s: seq<UsagePoint>)
    ensures SortedByTime(SortByTime(s))
  {
    if s != [] {
      SortByTimeSorted(s[..|s| - 1]);
      InsertSorted(SortByTime(s[..|s| - 1]), s[|s| - 1]);
    }
  }

  /** The points with a given timestamp, in order. */
  function WithTime(s: seq<UsagePoint>, t: int): seq<UsagePoint>
  {
    if s == [] then [] else (if s[0].timestamp == t then [s[0]] else []) + WithTime(s[1..], t)
  }

  lemma {:induction false} WithTimeAppend(a: seq<UsagePoint>, b: seq<UsagePoint>, t: int)
    ensures WithTime(a + b, t) == WithTime(a, t) + WithTime(b, t)
  {
    if a == [] {
      assert a + b == b;
    } else {
      var ab := a + b;
      var head := if a[0].timestamp == t then [a[0]] else [];
      assert ab[0] == a[0] && ab[1..] == a[1..] + b;
      assert WithTime(ab, t) == head + WithTime(a[1..] + b, t);
      assert WithTime(a, t) == head + WithTime(a[1..], t);
      WithTimeAppend(a[1..], b, t);
    }
  }

  lemma {:induction false} WithTimeNoneLater(s: seq<UsagePoint>, t: int)
    requires SortedByTime(s)
    requires s != [] && s[0].timestamp > t
    ensures WithTime(s, t) == []
  {
    if |s| > 1 {
      WithTimeNoneLater(s[1..], t);
    }
  }

  lemma SortedTail(s: seq<UsagePoint>)
    requires SortedByTime(s) && s != []
    ensures SortedByTime(s[1..])
  {
    forall i, j | 0 <= i < j < |s[1..]|
      ensures s[1..][i].timestamp <= s[1..][j].timestamp
    {
      assert s[1..][i] == s[i + 1] && s[1..][j] == s[j + 1];
    }
  }

  lemma {:induction false} InsertKeepsTies(s: seq<UsagePoint>, x: UsagePoint, t: int)
    requires SortedByTime(s)
    ensures WithTime(InsertByTime(s, x), t) == WithTime(s, t) + (if x.timestamp == t then [x] else [])
  {
    var own := if x.timestamp == t then [x] else [];
    if s == [] {
      assert WithTime([x], t) == own + WithTime([], t);
    } else if s[0].timestamp > x.timestamp {
      var r := [x] + s;
      assert r[1..] == s;
      assert WithTime(r, t) == own + WithTime(s, t);
      if x.timestamp == t {
        WithTimeNoneLater(s, t);
      }
    } else {
      var rest := InsertByTime(s[1..], x);
      var r := [s[0]] + rest;
      var head := if s[0].timestamp == t then [s[0]] else [];
      SortedTail(s);
      InsertKeepsTies(s[1..], x, t);
      assert r[0] == s[0] && r[1..] == rest;
      assert WithTime(r, t) == head + WithTime(rest, t);
      assert WithTime(s, t) == head + WithTime(s[1..], t);
      assert WithTime(r, t) == head + (WithTime(s[1..], t) + own);
    }
  }

  /** The sort is stable: points with equal timestamps keep their input order. */
  lemma {:induction false} SortByTimeStable(s: seq<UsagePoint>, t: int)
    ensures WithTime(SortByTime(s), t) == WithTime(s, t)
  {
    if s != [] {
      var init := s[..|s| - 1];
      var last := s[|s| - 1];
      var tail := if last.timestamp == t then [last] else [];
      calc {
        WithTime(SortByTime(s), t);
        WithTime(InsertByTime(SortByTime(init), last), t);
        { SortByTimeSorted(init); InsertKeepsTies(SortByTime(init), last, t); }
        WithTime(SortByTime(init), t) + tail;
        { SortByTimeStable(init, t); }
        WithTime(init, t) + tail;
        { assert [last][1..] == []; }
        WithTime(init, t) + WithTime([last], t);
        { WithTimeAppend(init, [last], t); assert s == init + [last]; }
        WithTime(s, t);
      }
    }
  }

  // ===== Usage series: the window and the detection scan =====

  const HOUR_MS: int := 3600000
  const MAX_PER_HOUR: int := 20

  function HourStart(ts: int): int
  {
    (ts / HOUR_MS) * HOUR_MS
  }

  /** `start.setHours(now.getHours() - 23, 0, 0, 0)`. */
  function WindowStart(now: int): int
  {
    HourStart(now) - 23 * HOUR_MS
  }

  predicate InWindow(ts: int, now: int)
  {
    WindowStart(now) <= ts <= now
  }

  /** `typeof p.value === 'number' && p.value > 0`. */
  predicate HasValue(p: UsagePoint)
  {
    p.value.Some? && p.value.value.Gt(0.0)
  }

  function Get(counts: map<int, int>, key: int): int
  {
    if key in counts then counts[key] else 0
  }

  function Min(a: int, b: int): int
  {
    if a <= b then a else b
  }

  datatype ScanState = ScanState(counts: map<int, int>, prevHasValue: bool)

  /** One iteration of the counting loop. */
  function Step(st: ScanState, p: UsagePoint, now: int): ScanState
  {
    if !InWindow(p.timestamp, now) then st
    else if HasValue(p) && !st.prevHasValue then
      var key := HourStart(p.timestamp);
      ScanState(st.counts[key := Min(MAX_PER_HOUR, Get(st.counts, key) + 1)], true)
    else ScanState(st.counts, HasValue(p))
  }

  /** The counting loop over a prefix of the sorted points. */
  function Scan(points: seq<UsagePoint>, now: int): ScanState
  {
    if points == [] then ScanState(map[], false)
    else Step(Scan(points[..|points| - 1], now), points[|points| - 1], now)
  }

  /** The position of the last point inside the window, or -1 when no
      point is inside it. */
  function LastIndexInWindow(points: seq<UsagePoint>, now: int): (k: int)
    ensures -1 <= k < |points|
    ensures k >= 0 ==> InWindow(points[k].timestamp, now)
    ensures forall j :: k < j < |points| ==> !InWindow(points[j].timestamp, now)
  {
    if points == [] then -1
    else if InWindow(points[|points| - 1].timestamp, now) then |points| - 1
    else LastIndexInWindow(points[..|points| - 1], now)
  }

  /** The last point inside the window, if any: none exactly when no point
      is inside the window. */
  function LastInWindow(points: seq<UsagePoint>, now: int): (r: Option<UsagePoint>)
    ensures r.None? <==> forall i :: 0 <= i < |points| ==> !InWindow(points[i].timestamp, now)
    ensures r.Some? ==> r.value in points && InWindow(r.value.timestamp, now)
    ensures r.Some? ==> forall j :: LastIndexInWindow(points, now) < j < |points| ==> !InWindow(points[j].timestamp, now)
    ensures r.Some? ==> r.value == points[LastIndexInWindow(points, now)]
  {
    var k := LastIndexInWindow(points, now);
    if k < 0 then None else Some(points[k])
  }

  /** Points outside the window never touch `prevHasValue`: it tells whether
      the last point inside the window had a value. */
  lemma {:induction false} PrevIsLastInWindow(points: seq<UsagePoint>, now: int)
    ensures Scan(points, now).prevHasValue <==> LastInWindow(points, now).Some? && HasValue(LastInWindow(points, now).value)
  {
    if points != [] {
      PrevIsLastInWindow(points[..|points| - 1], now);
    }
  }

  /** Whether the last point inside the window had a value. */
  predicate PrevInWindowHadValue(points: seq<UsagePoint>, now: int)
  {
    var last := LastInWindow(points, now);
    last.Some? && HasValue(last.value)
  }

  /** The hours of the detections, uncapped: one entry per point inside the
      window that has a value while the previous point inside the window
      had none. */
  function RisingHours(points: seq<UsagePoint>, now: int): seq<int>
  {
    if points == [] then []
    else
      var init := points[..|points| - 1];
      var p := points[|points| - 1];
      RisingHours(init, now)
        + (if InWindow(p.timestamp, now) && HasValue(p) && !PrevInWindowHadValue(init, now)
           then [HourStart(p.timestamp)] else [])
  }

  /** Each hour's count is its number of detections, capped at 20. */
  lemma {:induction false} CountsAreCappedDetections(points: seq<UsagePoint>, now: int, key: int)
    ensures Get(Scan(points, now).counts, key) == Min(MAX_PER_HOUR, multiset(RisingHours(points, now))[key])
  {
    if points != [] {
      PrevIsLastInWindow(points[..|points| - 1], now);
      CountsAreCappedDetections(points[..|points| - 1], now, key);
    }
  }

  /** Every counted hour is one of the 24 hour buckets of the window, and
      its count lies between 1 and 20. */
  lemma {:induction false} CountsInBuckets(points: seq<UsagePoint>, now: int)
    ensures forall key :: key in Scan(points, now).counts ==>
              1 <= Scan(points, now).counts[key] <= MAX_PER_HOUR &&
              WindowStart(now) <= key <= HourStart(now) && key % HOUR_MS == 0
  {
    if points != [] {
      CountsInBuckets(points[..|points| - 1], now);
      var p := points[|points| - 1];
      if InWindow(p.timestamp, now) {
        HourStartMonotone(WindowStart(now), p.timestamp);
        HourStartMonotone(p.timestamp, now);
        assert HourStart(WindowStart(now)) == WindowStart(now);
      }
    }
  }

  lemma HourStartMonotone(a: int, b: int)
    requires a <= b
    ensures HourStart(a) <= HourStart(b)
  {
    assert a / HOUR_MS <= b / HOUR_MS;
  }

  // ===== Usage series: emitting the buckets =====

  /** The first `n` hour buckets of the window that have a count, as
      (bucket start, count) pairs in chronological order. */
  function Emitted(counts: map<int, int>, start: int, n: nat): seq<(int, int)>
  {
    if n == 0 then []
    else
      var key := start + (n - 1) * HOUR_MS;
      Emitted(counts, start, n - 1) + (if Get(counts, key) > 0 then [(key, Get(counts, key))] else [])
  }

  /** What is emitted: only buckets with a count, each with its own count,
      strictly later one after the other, and every such bucket. */
  lemma {:induction false} EmittedShape(counts: map<int, int>, start: int, n: nat)
    ensures |Emitted(counts, start, n)| <= n
    ensures forall j :: 0 <= j < |Emitted(counts, start, n)| ==>
              var (key, c) := Emitted(counts, start, n)[j];
              c == Get(counts, key) && c > 0 && start <= key < start + n * HOUR_MS && (key - start) % HOUR_MS == 0
    ensures forall j, k :: 0 <= j < k < |Emitted(counts, start, n)| ==>
              Emitted(counts, start, n)[j].0 < Emitted(counts, start, n)[k].0
    ensures forall i :: 0 <= i < n && Get(counts, start + i * HOUR_MS) > 0 ==>
              (start + i * HOUR_MS, Get(counts, start + i * HOUR_MS)) in Emitted(counts, start, n)
  {
    if n > 0 {
      EmittedShape(counts, start, n - 1);
      var key := start + (n - 1) * HOUR_MS;
      assert (key - start) % HOUR_MS == 0 by {
        assert key - start == (n - 1) * HOUR_MS;
      }
    }
  }

  /** A bucket with a count among the first `n` is emitted. */
  lemma {:induction false} EmittedIncludes(counts: map<int, int>, start: int, n: nat, i: nat)
    requires i < n && Get(counts, start + i * HOUR_MS) > 0
    ensures (start + i * HOUR_MS, Get(counts, start + i * HOUR_MS)) in Emitted(counts, start, n)
  {
    if i < n - 1 {
      EmittedIncludes(counts, start, n - 1, i);
    }
  }

  /** `${hour.padStart(2, '0')}:00` for the bucket's hour of day. */
  function HourLabel(bucket: int): (s: string)
    ensures |s| == 5 && s[2..] == ":00"
    ensures '0' <= s[0] <= '2' && '0' <= s[1] <= '9'
  {
    var h := (bucket / HOUR_MS) % 24;
    [DigitChar(h / 10), DigitChar(h % 10)] + ":00"
  }

  /** The two digits of a label read back as the bucket's hour of day. */
  lemma HourLabelDigits(bucket: int)
    ensures var s := HourLabel(bucket);
            (s[0] as int - '0' as int) * 10 + (s[1] as int - '0' as int) == (bucket / HOUR_MS) % 24
  {
  }

  function DigitChar(d: int): char
    requires 0 <= d < 10
  {
    (48 + d) as char
  }

  datatype Series = Series(labels: seq<string>, values: seq<int>)

  function Labels(e: seq<(int, int)>): (r: seq<string>)
    ensures |r| == |e|
    ensures forall j :: 0 <= j < |e| ==> r[j] == HourLabel(e[j].0)
  {
    if e == [] then [] else Labels(e[..|e| - 1]) + [HourLabel(e[|e| - 1].0)]
  }

  function Counts(e: seq<(int, int)>): (r: seq<int>)
    ensures |r| == |e|
    ensures forall j :: 0 <= j < |e| ==> r[j] == e[j].1
  {
    if e == [] then [] else Counts(e[..|e| - 1]) + [e[|e| - 1].1]
  }

  /** buildEmptySeries. */
  function EmptySeries(): (s: Series)
    ensures s.labels == [] && s.values == []
  {
    Series([], [])
  }

  /** What buildUsageSeries computes: nothing for missing or empty data,
      otherwise the non-empty buckets of the window over the sorted points. */
  function UsageSeries(data: Option<seq<UsagePoint>>, now: int): Series
  {
    if data.None? || data.value == [] then EmptySeries()
    else
      var e := Emitted(Scan(SortByTime(data.value), now).counts, WindowStart(now), 24);
      Series(Labels(e), Counts(e))
  }

  /** buildUsageSeries: sort, scan the window counting rising edges, then
      walk the 24 hour buckets emitting those with a count. */
  method BuildUsageSeries(data: Option<seq<UsagePoint>>, now: int) returns (series: Series)
    ensures series == UsageSeries(data, now)
  {
    if data.None? || |data.value| == 0 {
      return EmptySeries();
    }
    var points := SortByTime(data.value);
    var counts := CountDetections(points, now);
    series := EmitBuckets(counts, WindowStart(now));
  }

  /** The counting loop of buildUsageSeries over the sorted points. */
  method CountDetections(points: seq<UsagePoint>, now: int) returns (counts: map<int, int>)
    ensures counts == Scan(points, now).counts
  {
    var start := WindowStart(now);
    counts := map[];
    var prevHasValue := false;
    var i := 0;
    while i < |points|
      invariant 0 <= i <= |points|
      invariant ScanState(counts, prevHasValue) == Scan(points[..i], now)
    {
      var p := points[i];
      assert points[..i + 1][..i] == points[..i] && points[..i + 1][i] == p;
      assert Scan(points[..i + 1], now) == Step(ScanState(counts, prevHasValue), p, now);
      if p.timestamp < start || p.timestamp > now {
        i := i + 1;
        continue;
      }
      var hasValue := p.value.Some? && p.value.value.Gt(0.0);
      if hasValue && !prevHasValue {
        var key := HourStart(p.timestamp);
        counts := counts[key := Min(MAX_PER_HOUR, Get(counts, key) + 1)];
      }
      prevHasValue := hasValue;
      i := i + 1;
    }
    assert points[..i] == points;
  }

  lemma EmittedNext(counts: map<int, int>, start: int, b: nat)
    ensures var key := start + b * HOUR_MS;
            Emitted(counts, start, b + 1) == Emitted(counts, start, b) + (if Get(counts, key) > 0 then [(key, Get(counts, key))] else [])
  {
  }

  lemma LabelsCountsAppend(e: seq<(int, int)>, x: (int, int))
    ensures Labels(e + [x]) == Labels(e) + [HourLabel(x.0)]
    ensures Counts(e + [x]) == Counts(e) + [x.1]
  {
    assert (e + [x])[..|e|] == e;
  }

  /** The emitting loop of buildUsageSeries over the 24 hour buckets. */
  method EmitBuckets(counts: map<int, int>, start: int) returns (series: Series)
    ensures var e := Emitted(counts, start, 24); series == Series(Labels(e), Counts(e))
  {
    var labels: seq<string> := [];
    var values: seq<int> := [];
    ghost var e: seq<(int, int)> := [];
    var b := 0;
    while b < 24
      invariant 0 <= b <= 24
      invariant e == Emitted(counts, start, b)
      invariant labels == Labels(e) && values == Counts(e)
    {
      var key := start + b * HOUR_MS;
      var c := Get(counts, key);
      EmittedNext(counts, start, b);
      if c > 0 {
        LabelsCountsAppend(e, (key, c));
        labels := labels + [HourLabel(key)];
        values := values + [c];
        e := e + [(key, c)];
      }
      b := b + 1;
    }
    series := Series(labels, values);
  }

  /** The series has at most 24 points, one label per value, and every
      value between 1 and 20. */
  lemma UsageSeriesBounds(data: Option<seq<UsagePoint>>, now: int)
    ensures |UsageSeries(data, now).labels| == |UsageSeries(data, now).values| <= 24
    ensures forall j :: 0 <= j < |UsageSeries(data, now).values| ==> 1 <= UsageSeries(data, now).values[j] <= MAX_PER_HOUR
  {
    if data.Some? && data.value != [] {
      var counts := Scan(SortByTime(data.value), now).counts;
      EmittedShape(counts, WindowStart(now), 24);
      CountsInBuckets(SortByTime(data.value), now);
    }
  }

  /** Each value emitted for a scan is the number of detections in its
      hour, capped at 20. */
  lemma EmittedCountsAreCappedDetections(points: seq<UsagePoint>, now: int)
    ensures var e := Emitted(Scan(points, now).counts, WindowStart(now), 24);
            forall j :: 0 <= j < |e| ==> e[j].1 == Min(MAX_PER_HOUR, multiset(RisingHours(points, now))[e[j].0])
  {
    var counts := Scan(points, now).counts;
    var e := Emitted(counts, WindowStart(now), 24);
    EmittedShape(counts, WindowStart(now), 24);
    forall j | 0 <= j < |e|
      ensures e[j].1 == Min(MAX_PER_HOUR, multiset(RisingHours(points, now))[e[j].0])
    {
      CountsAreCappedDetections(points, now, e[j].0);
    }
  }

  /** Every hour bucket of the window with a detection is emitted. */
  lemma DetectedHoursAreEmitted(points: seq<UsagePoint>, now: int, i: int)
    requires 0 <= i < 24
    requires multiset(RisingHours(points, now))[WindowStart(now) + i * HOUR_MS] > 0
    ensures var key := WindowStart(now) + i * HOUR_MS;
            (key, Get(Scan(points, now).counts, key)) in Emitted(Scan(points, now).counts, WindowStart(now), 24)
  {
    var counts := Scan(points, now).counts;
    CountsAreCappedDetections(points, now, WindowStart(now) + i * HOUR_MS);
    EmittedIncludes(counts, WindowStart(now), 24, i);
  }

  /** loadUsageFor: the series of the fetched chart data, or the empty
      series when the fetch fails. */
  method LoadUsageFor(fetched: Result<Option<seq<UsagePoint>>, string>, now: int) returns (series: Series)
    ensures fetched.Ok? ==> series == UsageSeries(fetched.value, now)
    ensures fetched.Err? ==> series == EmptySeries()
  {
    if fetched.Err? {
      return EmptySeries();
    }
    series := BuildUsageSeries(fetched.value, now);
  }
}
