/** The pollutants-over-time chart (src/components/charts/PollutantsTime.tsx):
    the readings it has fetched, the time window the user picks and the
    readings that fall inside it, and the card description. Dates are
    instants in milliseconds; parsing the `date` string is not modelled. */
module PollutantsTime {
  import opened Wrappers
  import opened Seqs

  datatype AqReading = AqReading(aqi: int, pm2_5: int, pm10: int, co: int, no2: int, assetModel: string, date: int)

  const HourMs: int := 3600000
  const DayMs: int := 24 * HourMs

  /** How far back the window for a range reaches: 24 hours for "24h", 7 days
      for "7d", 30 days for "30d" and 90 days for any other value. */
  function WindowMs(range: string): (w: int)
    ensures w > 0
    ensures range == "24h" ==> w == 24 * HourMs
    ensures range == "7d" ==> w == 7 * DayMs
    ensures range == "30d" ==> w == 30 * DayMs
    ensures range != "24h" && range != "7d" && range != "30d" ==> w == 90 * DayMs
  {
    if range == "24h" then 24 * HourMs
    else if range == "7d" then 7 * DayMs
    else if range == "30d" then 30 * DayMs
    else 90 * DayMs
  }

  /** The start of the window, `now` being the reference date. */
  function StartDate(range: string, now: int): int {
    now - WindowMs(range)
  }

  /** `filteredData`: the readings dated at or after the start of the window,
      in the order they were fetched. */
  function FilteredData(data: seq<AqReading>, range: string, now: int): (r: seq<AqReading>)
    ensures |r| <= |data|
    ensures forall k :: 0 <= k < |r| ==> r[k] in data && r[k].date >= StartDate(range, now)
    ensures forall k :: 0 <= k < |data| && data[k].date >= StartDate(range, now) ==> data[k] in r
  {
    var start := StartDate(range, now);
    Filter(data, (item: AqReading) => item.date >= start)
  }

  /** The windows grow from "24h" to "7d" to "30d" to the 90-day default. */
  lemma WindowsGrow(other: string)
    requires other != "24h" && other != "7d" && other != "30d"
    ensures WindowMs("24h") < WindowMs("7d") < WindowMs("30d") < WindowMs(other)
  {
  }

  /** A shorter window shows exactly the readings of a longer one that fall
      inside it, so switching from "7d" to "24h" only removes points. */
  lemma NarrowerWindow(data: seq<AqReading>, short: string, long: string, now: int)
    requires WindowMs(short) <= WindowMs(long)
    ensures FilteredData(FilteredData(data, long, now), short, now) == FilteredData(data, short, now)
    ensures |FilteredData(data, short, now)| <= |FilteredData(data, long, now)|
  {
    var s, l := StartDate(short, now), StartDate(long, now);
    var p := (item: AqReading) => item.date >= s;
    var q := (item: AqReading) => item.date >= l;
    FilterNarrows(data, p, q);
    assert FilteredData(data, long, now) == Filter(data, q);
  }

  /** Filtering a list fetched in two parts is filtering each part. */
  lemma FilteredDataAppend(a: seq<AqReading>, b: seq<AqReading>, range: string, now: int)
    ensures FilteredData(a + b, range, now) == FilteredData(a, range, now) + FilteredData(b, range, now)
  {
    var start := StartDate(range, now);
    FilterAppend(a, b, (item: AqReading) => item.date >= start);
  }

  /** The card description after the effect on `timeRange` runs: set for
      "24h" and "7d", left as it was for any other range. */
  function DescriptionFor(range: string, current: string): (d: string)
    ensures range != "24h" && range != "7d" ==> d == current
    ensures range == "24h" ==> d == "Showing data for the last 24 hours."
    ensures range == "7d" ==> d == "Showing data for the last 7 days."
  {
    if range == "24h" then "Showing data for the last 24 hours."
    else if range == "7d" then "Showing data for the last 7 days."
    else current
  }

  /** Running the effect again changes nothing, so it does not matter that
      React skips it when the range is set to the value it already has. */
  lemma DescriptionIdempotent(range: string, current: string)
    ensures DescriptionFor(range, DescriptionFor(range, current)) == DescriptionFor(range, current)
  {
  }

  /** The chart's state. */
  class Chart {
    var data: seq<AqReading>
    var timeRange: string
    var cardDescription: string
    var loading: bool

    /** The state before the first render's effects run. */
    constructor ()
      ensures data == [] && timeRange == "24h" && cardDescription == "" && loading
    {
      data, timeRange, cardDescription, loading := [], "24h", "", true;
    }

    /** The effect on `timeRange`, run after mount and after each change. */
    method DescriptionEffect()
      modifies this`cardDescription
      ensures cardDescription == DescriptionFor(timeRange, old(cardDescription))
    {
      if timeRange == "24h" {
        cardDescription := "Showing data for the last 24 hours.";
      } else if timeRange == "7d" {
        cardDescription := "Showing data for the last 7 days.";
      }
    }

    /** The Select's `onValueChange`, followed by the effect it triggers. */
    method SetTimeRange(range: string)
      modifies this`timeRange, this`cardDescription
      ensures timeRange == range
      ensures cardDescription == DescriptionFor(range, old(cardDescription))
    {
      timeRange := range;
      DescriptionEffect();
    }

    /** One run of `fetchData` (on mount and on every interval tick): the
        fetched list replaces the data and the skeleton goes away; a failed
        request changes nothing. */
    method FetchData(response: Outcome<seq<AqReading>>)
      modifies this`data, this`loading
      ensures response.Ok? ==> data == response.value && !loading
      ensures response.Fail? ==> data == old(data) && loading == old(loading)
    {
      if response.Ok? {
        data := response.value;
        loading := false;
      }
    }

    /** What the area chart draws at time `now`. */
    function Shown(now: int): seq<AqReading>
      reads this
    {
      FilteredData(data, timeRange, now)
    }
  }
}
