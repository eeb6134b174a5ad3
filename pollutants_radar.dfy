/** The pollutants radar chart (src/components/charts/PollutantsRadar.tsx):
    the five zero entries it starts with and the four entries the newest
    reading of the device "modelx21" replaces them with. The PM 10 entry is
    the constant 21, whatever the reading says. */
module PollutantsRadar {
  import opened Wrappers
  import opened Readings

  datatype Entry = Entry(pollutant: string, data: int)

  const InitialChartData: seq<Entry> := [
    Entry("PM 2.5", 0), Entry("PM 10", 0), Entry("Carbon Monoxide", 0), Entry("VOC", 0), Entry("Nitrogen Dioxide", 0)
  ]

  /** The entries drawn for a reading, in the order the chart lists them. */
  function RadarEntries(r: Reading): (e: seq<Entry>)
    ensures |e| == 4
    ensures e[0] == Entry("PM 2.5", r.pm2_5) && e[1] == Entry("PM 10", 21)
    ensures e[2] == Entry("Carbon Monoxide", r.co) && e[3] == Entry("Nitrogen Dioxide", r.no2)
  {
    [Entry("PM 2.5", r.pm2_5), Entry("PM 10", 21), Entry("Carbon Monoxide", r.co), Entry("Nitrogen Dioxide", r.no2)]
  }

  function Pollutants(e: seq<Entry>): (names: seq<string>)
    ensures |names| == |e|
    ensures forall k :: 0 <= k < |e| ==> names[k] == e[k].pollutant
  {
    seq(|e|, k requires 0 <= k < |e| => e[k].pollutant)
  }

  /** The first reading drops the VOC axis and keeps the other four in their
      order; the initial chart is all zero. */
  lemma ReadingDropsVoc(r: Reading)
    ensures Pollutants(RadarEntries(r)) == ["PM 2.5", "PM 10", "Carbon Monoxide", "Nitrogen Dioxide"]
    ensures |InitialChartData| == 5 && forall k :: 0 <= k < 5 ==> InitialChartData[k].data == 0
    ensures Pollutants(InitialChartData) == Pollutants(RadarEntries(r))[..3] + ["VOC"] + Pollutants(RadarEntries(r))[3..]
  {
  }

  /** A reading does not change the PM 10 entry: two readings that agree on
      PM 2.5, CO and NO2 draw the same chart. */
  lemma Pm10Ignored(a: Reading, b: Reading)
    requires a.pm2_5 == b.pm2_5 && a.co == b.co && a.no2 == b.no2
    ensures RadarEntries(a) == RadarEntries(b)
  {
  }

  class Radar {
    var chartData: seq<Entry>
    var loading: bool

    constructor ()
      ensures chartData == InitialChartData && loading
    {
      chartData, loading := InitialChartData, true;
    }

    /** `fetchData`, on mount and every two seconds: the newest reading, when
        there is one, redraws the chart, and any answer ends the loading
        state; a failed request changes nothing. */
    method FetchData(response: Outcome<seq<Reading>>)
      modifies this
      ensures response.Ok? && |response.value| > 0 ==> chartData == RadarEntries(response.value[0]) && !loading
      ensures response.Ok? && |response.value| == 0 ==> chartData == old(chartData) && !loading
      ensures response.Fail? ==> chartData == old(chartData) && loading == old(loading)
    {
      if response.Ok? {
        var readings := FirstReading(response.value);
        if readings.Some? {
          chartData := RadarEntries(readings.value);
        }
        loading := false;
      }
    }
  }
}
