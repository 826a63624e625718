/** The stored weather observation entity. */
module Entities {

  /**
   * One observation of one station, tagged with the delivery city it serves.
   * The string properties default to the empty string, never to null, so a
   * missing description is `""`. `DateTime` is modelled as a tick count.
   */
  datatype WeatherData = WeatherData(
    stationName: string,
    wmoCode: string,
    airTemperature: real,
    windSpeed: real,
    weatherPhenomenon: string,
    timestamp: int,
    city: string)
}
