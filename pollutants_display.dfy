/** The live AQI card (src/components/charts/PollutantsDisplay.tsx): the AQI
    level table and its search, the trend arrow of each pollutant, the
    current/previous reading pair kept across polls, and the display rules. */
module PollutantsDisplay {
  import opened Wrappers
  import opened Bands
  import opened Strings
  import opened Readings

  datatype AqiLevel = AqiLevel(max: int, name: string, color: string, textColor: string, bgColor: string)

  /** `aqiLevels`, in the order the component searches it. */
  const AqiLevels: seq<AqiLevel> := [
    AqiLevel(20, "Very Low", "#DAF7A6", "text-emerald-500", "var(--gray-counter)"),
    AqiLevel(40, "Low", "#008000", "text-green-500", "var(--gray-counter)"),
    AqiLevel(90, "Moderate", "#FFC300", "text-amber-500", "var(--gray-counter)"),
    AqiLevel(200, "High", "#C70039", "text-orange-500", "bg-gray-50"),
    AqiLevel(280, "Very High", "#900C3F", "text-red-500", "var(--gray-counter)"),
    AqiLevel(400, "Extremely High", "#581845", "text-purple-800", "var(--gray-counter)")
  ]

  /** The `max` of each level, in table order. */
  function LevelMaxes(): (m: seq<int>)
    ensures |m| == |AqiLevels|
    ensures forall k :: 0 <= k < |m| ==> m[k] == AqiLevels[k].max
    ensures forall i, j :: 0 <= i < j < |m| ==> m[i] < m[j]
  {
    seq(|AqiLevels|, k requires 0 <= k < |AqiLevels| => AqiLevels[k].max)
  }

  /** The position of the band the AQI falls in: the first level whose `max`
      the AQI does not exceed, and the last level when it exceeds them all. */
  function LevelIndex(aqi: int): (i: nat)
    ensures i < |AqiLevels|
    ensures forall k :: 0 <= k < i ==> AqiLevels[k].max < aqi
    ensures aqi <= AqiLevels[i].max || i == |AqiLevels| - 1
  {
    var b := BandOf(LevelMaxes(), aqi);
    if b < |AqiLevels| then b else |AqiLevels| - 1
  }

  function LevelOf(aqi: int): AqiLevel {
    AqiLevels[LevelIndex(aqi)]
  }

  /** `getAqiLevel`: walks the table and returns the first level whose `max`
      is at least the AQI, and the last level when there is none. */
  method GetAqiLevel(aqi: int) returns (level: AqiLevel)
    ensures level == LevelOf(aqi)
  {
    var maxes := LevelMaxes();
    for i := 0 to |AqiLevels|
      invariant forall k :: 0 <= k < i ==> maxes[k] < aqi
    {
      if aqi <= AqiLevels[i].max {
        BandOfInterval(maxes, aqi, i);
        assert LevelIndex(aqi) == i;
        return AqiLevels[i];
      }
    }
    BandOfInterval(maxes, aqi, |AqiLevels|);
    return AqiLevels[|AqiLevels| - 1];
  }

  /** A higher AQI never gets an earlier level. */
  lemma LevelOfMonotone(a: int, b: int)
    requires a <= b
    ensures LevelOf(a).max <= LevelOf(b).max
  {
    BandOfMonotone(LevelMaxes(), a, b);
    var maxes := LevelMaxes();
    assert maxes[LevelIndex(a)] <= maxes[LevelIndex(b)];
  }

  /** The pollutant a trend arrow is drawn for (`keyof Reading`). */
  datatype Field = Aqi | Pm25 | Pm10 | Co | No2

  function FieldValue(r: Reading, f: Field): int {
    match f
    case Aqi => r.aqi
    case Pm25 => r.pm2_5
    case Pm10 => r.pm10
    case Co => r.co
    case No2 => r.no2
  }

  datatype Trend = Up | Down | Flat

  /** `getTrend`: flat without two readings, otherwise the direction in which
      the field moved from the previous to the current reading. */
  function GetTrend(current: Option<Reading>, previous: Option<Reading>, f: Field): (t: Trend)
    ensures t == Up <==> current.Some? && previous.Some? && FieldValue(current.value, f) > FieldValue(previous.value, f)
    ensures t == Down <==> current.Some? && previous.Some? && FieldValue(current.value, f) < FieldValue(previous.value, f)
    ensures t == Flat <==> current.None? || previous.None? || FieldValue(current.value, f) == FieldValue(previous.value, f)
  {
    if previous.None? || current.None? then Flat
    else if FieldValue(current.value, f) > FieldValue(previous.value, f) then Up
    else if FieldValue(current.value, f) < FieldValue(previous.value, f) then Down
    else Flat
  }

  /** Swapping the two readings swaps the arrow. */
  lemma TrendReverses(a: Reading, b: Reading, f: Field)
    ensures GetTrend(Some(a), Some(b), f) == Up <==> GetTrend(Some(b), Some(a), f) == Down
    ensures GetTrend(Some(a), Some(b), f) == Flat <==> GetTrend(Some(b), Some(a), f) == Flat
  {
  }

  /** The level shown: that of the current reading, the first level without one. */
  function LevelShown(readings: Option<Reading>): (l: AqiLevel)
    ensures readings.None? ==> l == AqiLevels[0]
    ensures readings.Some? ==> l == LevelOf(readings.value.aqi)
  {
    if readings.Some? then LevelOf(readings.value.aqi) else AqiLevels[0]
  }

  /** "Device is turned: ON" exactly when the status is the string "on". */
  predicate DeviceOn(readings: Option<Reading>)
    ensures DeviceOn(readings) ==> readings.Some? && readings.value.status != "ON" && readings.value.status != "off"
  {
    readings.Some? && readings.value.status == "on"
  }

  /** The number on a pollutant card, "-" when there is no reading. */
  function CardValue(readings: Option<Reading>, f: Field): (s: string)
    ensures readings.None? ==> s == "-"
    ensures readings.Some? ==> s == IntToString(FieldValue(readings.value, f))
    ensures s != "-" <==> readings.Some?
  {
    if readings.Some? then IntToString(FieldValue(readings.value, f)) else "-"
  }

  /** Before any reading arrives the card shows "Very Low", the device as
      OFF, "-" on every pollutant card and no arrow. */
  lemma EmptyPanel(f: Field, previous: Option<Reading>)
    ensures LevelShown(None).name == "Very Low"
    ensures !DeviceOn(None)
    ensures CardValue(None, f) == "-"
    ensures GetTrend(None, previous, f) == Flat
  {
  }

  /** The component's state. */
  class Display {
    var model: string
    var readings: Option<Reading>
    var previousReadings: Option<Reading>
    var loading: bool
    var lazy: bool
    var lastUpdated: Option<int>

    constructor ()
      ensures model == "modelx21"
      ensures readings == None && previousReadings == None && lastUpdated == None
      ensures loading && lazy
    {
      model := "modelx21";
      readings, previousReadings, lastUpdated := None, None, None;
      loading, lazy := true, true;
    }

    /** One run of `fetchData` at time `now`, where `captured` is the value of
        `readings` in the render whose `fetchData` runs: the closure, not the
        current state, decides whether the previous reading moves. */
    method FetchData(captured: Option<Reading>, response: Outcome<seq<Reading>>, now: int)
      modifies this
      ensures model == old(model) && !loading
      ensures response.Ok? ==>
        var latest := FirstReading(response.value);
        && previousReadings == (if captured.Some? then captured else old(previousReadings))
        && readings == (if latest.Some? then latest else old(readings))
        && lastUpdated == (if latest.Some? then Some(now) else old(lastUpdated))
        && !lazy
      ensures response.Fail? ==>
        && readings == old(readings) && previousReadings == old(previousReadings)
        && lastUpdated == old(lastUpdated) && lazy == old(lazy)
    {
      loading := true;
      if response.Ok? {
        var latest := FirstReading(response.value);
        if captured.Some? {
          previousReadings := captured;
        }
        if latest.Some? {
          readings := latest;
          lastUpdated := Some(now);
        }
        lazy := false;
      }
      loading := false;
    }

    /** The Refresh button runs the current render's `fetchData`, which sees
        the reading in hand. */
    method Refresh(response: Outcome<seq<Reading>>, now: int)
      modifies this
      ensures model == old(model) && !loading
      ensures response.Ok? ==>
        var latest := FirstReading(response.value);
        && previousReadings == (if old(readings).Some? then old(readings) else old(previousReadings))
        && readings == (if latest.Some? then latest else old(readings))
        && lastUpdated == (if latest.Some? then Some(now) else old(lastUpdated))
        && !lazy
      ensures response.Fail? ==>
        && readings == old(readings) && previousReadings == old(previousReadings)
        && lastUpdated == old(lastUpdated) && lazy == old(lazy)
    {
      FetchData(readings, response, now);
    }

    /** The mount call and every tick of the 2 s interval run the first
        render's `fetchData`, registered by the `[model]` effect, which never
        re-runs because `setModel` is never called. In that render `readings`
        is null, so a poll never moves the previous reading. */
    method PollTick(response: Outcome<seq<Reading>>, now: int)
      modifies this
      ensures model == old(model) && !loading && previousReadings == old(previousReadings)
      ensures response.Ok? ==>
        var latest := FirstReading(response.value);
        && readings == (if latest.Some? then latest else old(readings))
        && lastUpdated == (if latest.Some? then Some(now) else old(lastUpdated))
        && !lazy
      ensures response.Fail? ==>
        && readings == old(readings) && lastUpdated == old(lastUpdated) && lazy == old(lazy)
    {
      FetchData(None, response, now);
    }

    /** The arrow of a card compares the reading in hand with the one before it. */
    function TrendOf(f: Field): Trend
      reads this
    {
      GetTrend(readings, previousReadings, f)
    }
  }

  /** Polls alone, from mount on, never set a previous reading, so every card
      shows a flat arrow however the readings move. */
  method PollsKeepTrendsFlat(ticks: seq<Outcome<seq<Reading>>>, now: int) returns (d: Display)
    ensures forall f :: d.TrendOf(f) == Flat
  {
    d := new Display();
    var i := 0;
    while i < |ticks|
      invariant 0 <= i <= |ticks|
      invariant fresh(d) && d.previousReadings == None
    {
      d.PollTick(ticks[i], now + 2000 * i);
      i := i + 1;
    }
  }

  /** Two refreshes show the direction in which any field moved between the
      two readings. */
  method RefreshesShowTrend(r1: Reading, r2: Reading, f: Field, t1: int, t2: int) returns (d: Display)
    ensures d.TrendOf(f) == GetTrend(Some(r2), Some(r1), f)
    ensures FieldValue(r2, f) > FieldValue(r1, f) ==> d.TrendOf(f) == Up
  {
    d := new Display();
    d.Refresh(Ok([r1]), t1);
    d.Refresh(Ok([r2]), t2);
  }
}
