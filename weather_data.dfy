/**
 * The records the weather service returns, as the dashboard reads them.
 * Numeric readings (temperatures, precipitation, wind) are floats in the
 * service's JSON; here they are opaque: a `Reading` holds only the text
 * that the page prints for the number, and nothing computes with it.
 */
module WeatherData {

  /** A numeric reading, kept as the text it renders to. */
  datatype Reading = Reading(text: string)

  /** `location`: `name` is the key of a tracked city. */
  datatype Location = Location(name: string, region: string)

  /** `current.condition`. */
  datatype Condition = Condition(text: string, icon: string)

  /** `current`: the fields a city card shows. */
  datatype Current = Current(
    tempC: Reading,
    tempF: Reading,
    condition: Condition,
    humidity: Reading,
    windKph: Reading,
    pressureMb: Reading,
    lastUpdated: string)

  /** The body of a current-conditions response: one tracked city. */
  datatype City = City(location: Location, current: Current)

  /** `forecastday[i].day`: the aggregates of one day. */
  datatype DayStats = DayStats(avgTempC: Reading, avgTempF: Reading, totalPrecipMm: Reading, maxWindKph: Reading)

  /** `forecastday[i].hour[j]`: one hourly sample; `time` reads "YYYY-MM-DD HH:MM". */
  datatype Hour = Hour(time: string, tempC: Reading, tempF: Reading, precipMm: Reading, windKph: Reading)

  /** `forecastday[i]`. */
  datatype ForecastDay = ForecastDay(date: string, day: DayStats, hour: seq<Hour>)

  /** `forecast`: the days of a forecast response, in order. */
  datatype Forecast = Forecast(forecastday: seq<ForecastDay>)

  /** The body of a forecast response. */
  datatype ForecastResponse = ForecastResponse(location: Location, current: Current, forecast: Forecast)

  /** What a call to the weather service gives: a body, or an error with its `message`. */
  datatype Remote<+T> = Answer(body: T) | Failure(message: string)
}
