/** The sensor reading the backend's `/aqReadings` endpoints return, shared by
    the pollutant display, the radar chart and the announcement dialog.
    Pollutant values are JavaScript numbers; the model takes them as integers. */
module Readings {
  import Wrappers

  datatype Reading = Reading(aqi: int, pm2_5: int, pm10: int, co: int, no2: int, status: string)

  /** The first element of `response.data.aqReadings`, or `undefined` when the
      list is empty. */
  function FirstReading(list: seq<Reading>): (r: Wrappers.Option<Reading>)
    ensures r.Some? <==> |list| > 0
    ensures r.Some? ==> r.value == list[0]
  {
    if |list| > 0 then Wrappers.Some(list[0]) else Wrappers.None
  }
}
