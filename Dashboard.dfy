/**
 * The live dashboard: every poll reads the newest record of a ThingSpeak
 * channel, turns it into a reading, appends it to a window of at most 20
 * readings, and forwards the reading to the greenhouse backend.  The charts
 * show the window; the pie chart shows its newest reading.
 */
module Dashboard {
  import opened Wrappers

  /**
   * What JavaScript's `Number(...)` yields: NaN, an infinity, or a finite
   * value (negative zero is folded into zero).
   */
  datatype Number = NaN | Infinite(negative: bool) | Finite(value: real)

  /** One record of the channel feed; ThingSpeak sends every field as text. */
  datatype Feed = Feed(
    createdAt: string,
    field1: string, field2: string, field3: string,
    field4: string, field5: string, field6: string)

  /** One entry of the dashboard's history window. */
  datatype Reading = Reading(
    time: string,
    temperature: Number, humidity: Number, soil: Number,
    light: Number, co2: Number)

  /** The JSON body forwarded to the backend after each reading. */
  datatype PostBody = PostBody(
    temperature: Number, humidity: Number, soilMoisture: Number,
    light: Number, co2: Number, timestamp: string)

  /** Outcome of the GET on the feed: the request threw, or it gave the `feeds` list. */
  datatype GetResponse = GetFailed | GetOk(feeds: seq<Feed>)

  /** One slice of the pie chart. */
  datatype PieSlice = PieSlice(name: string, value: Number)

  /**
   * The host functions the dashboard calls but whose behaviour is not
   * modelled: `Number(text)`, and `new Date(text).toLocaleTimeString()`.
   */
  datatype Host = Host(toNumber: string -> Number, localeTime: string -> string)

  /** How many old readings an append keeps: the `-19` of `prev.slice(-19)`. */
  const Keep: nat := 19

  /** The largest window an append can produce. */
  const Capacity: nat := Keep + 1

  /** Palette of the pie chart's slices. */
  const Colors: seq<string> := ["#ff6b6b", "#4ecdc4", "#f7b731", "#45b7d1", "#9b59b6"]

  /** Slice names of the pie chart, in order. */
  const PieNames: seq<string> := ["Temp", "Humidity", "Soil", "Light", "CO\U{2082}"]

  // ---------------------------------------------------------------------
  // Arithmetic helpers

  function Min(a: int, b: int): (m: int)
  {
    if a <= b then a else b
  }

  function Max(a: int, b: int): (m: int)
  {
    if a <= b then b else a
  }

  // ---------------------------------------------------------------------
  // Sequences as JavaScript arrays

  /**
   * `s.slice(start)`: a negative start counts from the end and is clamped
   * at 0, a non-negative one is clamped at the length.
   */
  function SliceFrom<T>(s: seq<T>, start: int): (r: seq<T>)
    ensures start < 0 ==> |r| == Min(|s|, -start)
    ensures 0 <= start ==> |r| == |s| - Min(start, |s|)
    ensures r == s[|s| - |r|..]
  {
    if start < 0 then s[Max(|s| + start, 0)..] else s[Min(start, |s|)..]
  }

  /** The last `n` elements of `s` (all of `s` when it is shorter). */
  function LastN<T>(s: seq<T>, n: nat): (r: seq<T>)
    ensures |r| == Min(n, |s|)
    ensures forall i :: 0 <= i < |r| ==> r[i] == s[|s| - |r| + i]
  {
    s[|s| - Min(n, |s|)..]
  }

  /** Taking the last `n` twice, with more appended in between, is taking them once. */
  lemma {:induction false} LastNOfConcat<T>(s: seq<T>, t: seq<T>, n: nat)
    ensures LastN(LastN(s, n) + t, n) == LastN(s + t, n)
  {
    var u := LastN(s, n);
    var a := LastN(u + t, n);
    var b := LastN(s + t, n);
    assert |a| == |b|;
    forall i | 0 <= i < |a|
      ensures a[i] == b[i]
    {
      var k := |u + t| - |a| + i;
      if k >= |u| {
        assert (u + t)[k] == t[k - |u|];
        assert (s + t)[|s + t| - |b| + i] == t[k - |u|];
      } else {
        assert (u + t)[k] == u[k] == s[|s| - |u| + k];
      }
    }
  }

  // ---------------------------------------------------------------------
  // The history window

  /** The updater passed to `setHistory`: `prev => [...prev.slice(-19), newEntry]`. */
  function Append<T>(prev: seq<T>, entry: T): (r: seq<T>)
    ensures 1 <= |r| <= Capacity
    ensures r[|r| - 1] == entry
  {
    SliceFrom(prev, -(Keep as int)) + [entry]
  }

  /** The window grows by one until it is full, and never holds more than 20. */
  lemma AppendLength<T>(prev: seq<T>, entry: T)
    ensures |Append(prev, entry)| == Min(|prev|, Keep) + 1
    ensures |Append(prev, entry)| <= Capacity
  {
  }

  /**
   * The new entry comes last, and before it stand the newest `min(19, |prev|)`
   * old entries in their original order.
   */
  lemma AppendOrder<T>(prev: seq<T>, entry: T)
    ensures var r := Append(prev, entry);
      r[|r| - 1] == entry && r[..|r| - 1] == prev[|prev| - Min(Keep, |prev|)..]
  {
    var r := Append(prev, entry);
    assert r[..|r| - 1] == SliceFrom(prev, -(Keep as int));
  }

  /** Below capacity nothing is dropped. */
  lemma AppendBelowCapacity<T>(prev: seq<T>, entry: T)
    requires |prev| <= Keep
    ensures Append(prev, entry) == prev + [entry]
  {
    assert SliceFrom(prev, -(Keep as int)) == prev;
  }

  /** An append keeps the last 20 of everything seen so far, old window included. */
  lemma AppendIsLastN<T>(prev: seq<T>, entry: T)
    ensures Append(prev, entry) == LastN(prev + [entry], Capacity)
  {
    var r := Append(prev, entry);
    var w := LastN(prev + [entry], Capacity);
    assert |r| == |w|;
    forall i | 0 <= i < |r|
      ensures r[i] == w[i]
    {
      if i < |r| - 1 {
        assert r[i] == SliceFrom(prev, -(Keep as int))[i];
      }
    }
  }

  /** The window after a run of completed fetches, starting from `h`. */
  function Replay<T>(h: seq<T>, entries: seq<T>): (w: seq<T>)
    ensures entries == [] ==> w == h
    ensures entries != [] ==> 1 <= |w| <= Capacity && w[|w| - 1] == entries[|entries| - 1]
    decreases |entries|
  {
    if entries == [] then h else Replay(Append(h, entries[0]), entries[1..])
  }

  /** Any run of appends leaves exactly the last 20 of all entries, in arrival order. */
  lemma {:induction false} ReplayIsLastN<T>(h: seq<T>, entries: seq<T>)
    requires |h| <= Capacity
    ensures Replay(h, entries) == LastN(h + entries, Capacity)
    decreases |entries|
  {
    if entries == [] {
      assert h + entries == h;
    } else {
      var e, rest := entries[0], entries[1..];
      var next := Append(h, e);
      ReplayIsLastN(next, rest);
      AppendIsLastN(h, e);
      LastNOfConcat(h + [e], rest, Capacity);
      ConsConcat(h, entries);
      calc {
        Replay(h, entries);
        Replay(next, rest);
        LastN(next + rest, Capacity);
        LastN(LastN(h + [e], Capacity) + rest, Capacity);
        LastN(h + [e] + rest, Capacity);
        LastN(h + entries, Capacity);
      }
    }
  }

  /** Splitting off the first of `entries` and appending it to `h` keeps the concatenation. */
  lemma ConsConcat<T>(h: seq<T>, entries: seq<T>)
    requires entries != []
    ensures h + [entries[0]] + entries[1..] == h + entries
  {
    assert entries == [entries[0]] + entries[1..];
  }

  /** From the empty initial state, `k` appends leave the last `min(k, 20)` entries. */
  lemma FromEmpty<T>(entries: seq<T>)
    ensures |Replay([], entries)| == Min(|entries|, Capacity)
    ensures Replay([], entries) == entries[|entries| - Min(|entries|, Capacity)..]
  {
    ReplayIsLastN([], entries);
    assert [] + entries == entries;
  }

  // ---------------------------------------------------------------------
  // Mapping a feed record

  /** The reading built from a feed record (field2 is never read). */
  function ToReading(host: Host, feed: Feed): (r: Reading)
  {
    Reading(
      host.localeTime(feed.createdAt),
      host.toNumber(feed.field1),
      host.toNumber(feed.field3),
      host.toNumber(feed.field4),
      host.toNumber(feed.field5),
      host.toNumber(feed.field6))
  }

  /**
   * Each reading field depends on its own raw field alone: two records that
   * agree on a raw field give readings that agree on the matching value,
   * whatever their other fields (field2 included) hold.
   */
  lemma ToReadingFieldwise(host: Host, f: Feed, g: Feed)
    ensures f.createdAt == g.createdAt ==> ToReading(host, f).time == ToReading(host, g).time
    ensures f.field1 == g.field1 ==> ToReading(host, f).temperature == ToReading(host, g).temperature
    ensures f.field3 == g.field3 ==> ToReading(host, f).humidity == ToReading(host, g).humidity
    ensures f.field4 == g.field4 ==> ToReading(host, f).soil == ToReading(host, g).soil
    ensures f.field5 == g.field5 ==> ToReading(host, f).light == ToReading(host, g).light
    ensures f.field6 == g.field6 ==> ToReading(host, f).co2 == ToReading(host, g).co2
    ensures ToReading(host, f.(field2 := g.field2)) == ToReading(host, f)
  {
  }

  /** The body of the POST: the reading's values, soil renamed, and the raw timestamp. */
  function ToPostBody(entry: Reading, createdAt: string): (b: PostBody)
  {
    PostBody(entry.temperature, entry.humidity, entry.soil, entry.light, entry.co2, createdAt)
  }

  /**
   * The forwarded values are the ones appended to the window; the timestamp
   * is the feed's raw `created_at`, not the formatted `time`.
   */
  lemma PostBodyMatchesReading(host: Host, feed: Feed)
    ensures var e := ToReading(host, feed);
      var b := ToPostBody(e, feed.createdAt);
      b.temperature == e.temperature && b.humidity == e.humidity &&
      b.soilMoisture == e.soil && b.light == e.light && b.co2 == e.co2 &&
      b.timestamp == feed.createdAt
  {
  }

  // ---------------------------------------------------------------------
  // Values derived for rendering

  /** `history[history.length - 1]`: undefined when the window is empty. */
  function Latest<T>(history: seq<T>): (r: Option<T>)
    ensures r.None? <==> history == []
    ensures r.Some? ==> r.value == history[|history| - 1]
  {
    if history == [] then None else Some(history[|history| - 1])
  }

  /** After an append the latest reading is the one just appended. */
  lemma LatestAfterAppend<T>(prev: seq<T>, entry: T)
    ensures Latest(Append(prev, entry)) == Some(entry)
  {
    AppendOrder(prev, entry);
  }

  /** The pie chart's data: five slices of the latest reading, or none. */
  function PieData(history: seq<Reading>): (r: seq<PieSlice>)
    ensures |r| == if history == [] then 0 else |PieNames|
  {
    match Latest(history)
    case None => []
    case Some(l) =>
      [ PieSlice(PieNames[0], l.temperature),
        PieSlice(PieNames[1], l.humidity),
        PieSlice(PieNames[2], l.soil),
        PieSlice(PieNames[3], l.light),
        PieSlice(PieNames[4], l.co2) ]
  }

  /**
   * No slices exactly when there is no reading; otherwise the five named
   * slices in order, valued from the newest reading.
   */
  lemma PieDataShape(history: seq<Reading>)
    ensures PieData(history) == [] <==> history == []
    ensures history != [] ==>
      var l, r := history[|history| - 1], PieData(history);
      |r| == |PieNames| &&
      (forall i :: 0 <= i < |r| ==> r[i].name == PieNames[i]) &&
      r[0].value == l.temperature && r[1].value == l.humidity &&
      r[2].value == l.soil && r[3].value == l.light && r[4].value == l.co2
  {
  }

  /** `index % COLORS.length`: always a valid palette index. */
  function ColorIndex(index: nat): (k: nat)
    ensures k < |Colors|
    ensures index < |Colors| ==> k == index
  {
    index % |Colors|
  }

  /** Every slice of the pie chart gets a colour of its own. */
  lemma PieColorsDistinct(history: seq<Reading>, i: nat, j: nat)
    requires i < |PieData(history)| && j < |PieData(history)| && i != j
    ensures Colors[ColorIndex(i)] != Colors[ColorIndex(j)]
  {
    PieDataShape(history);
    assert Colors[0] != Colors[1] && Colors[0] != Colors[2] && Colors[0] != Colors[3] && Colors[0] != Colors[4];
    assert Colors[1] != Colors[2] && Colors[1] != Colors[3] && Colors[1] != Colors[4];
    assert Colors[2] != Colors[3] && Colors[2] != Colors[4] && Colors[3] != Colors[4];
  }

  // ---------------------------------------------------------------------
  // The component's state and its fetch

  /** The dashboard component: its `history` state variable. */
  class GreenhouseDashboard {
    var history: seq<Reading>
    /** Every reading ever appended, oldest first. */
    ghost var arrivals: seq<Reading>

    /** The window holds the last 20 readings that arrived, in arrival order. */
    ghost predicate Valid()
      reads this
    {
      |history| <= Capacity && history == LastN(arrivals, Capacity)
    }

    /** `useState([])`. */
    constructor ()
      ensures Valid()
      ensures history == [] && arrivals == []
    {
      history := [];
      arrivals := [];
    }

    /**
     * One completed `fetchData`: GET, map, `setHistory`, then POST, inside a
     * try whose catch only logs.  `get` is what the GET gave, `postSucceeds`
     * whether the POST resolved; `posted` is the body sent, if any, and
     * `logged` whether the catch ran.
     */
    method FetchStep(host: Host, get: GetResponse, postSucceeds: bool)
      returns (posted: Option<PostBody>, logged: bool)
      requires Valid()
      modifies this
      ensures Valid()
      // A failed GET, or an empty `feeds` (reading `created_at` of undefined
      // throws), is caught: nothing changes and nothing is posted.
      ensures get.GetFailed? || get.feeds == [] ==>
        history == old(history) && arrivals == old(arrivals) && posted == None && logged
      // Otherwise the reading is appended before the POST, so a failed POST
      // is logged but does not undo the append.
      ensures get.GetOk? && get.feeds != [] ==>
        var feed := get.feeds[0];
        var entry := ToReading(host, feed);
        history == Append(old(history), entry) &&
        arrivals == old(arrivals) + [entry] &&
        posted == Some(ToPostBody(entry, feed.createdAt)) &&
        logged == !postSucceeds
    {
      if get.GetFailed? || get.feeds == [] {
        posted, logged := None, true;
        return;
      }
      var feed := get.feeds[0];
      var entry := ToReading(host, feed);
      AppendIsLastN(history, entry);
      LastNOfConcat(arrivals, [entry], Capacity);
      history := Append(history, entry);
      arrivals := arrivals + [entry];
      posted := Some(ToPostBody(entry, feed.createdAt));
      logged := !postSucceeds;
    }
  }
}
