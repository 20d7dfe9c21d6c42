/**
 * The data shaping of the city detail modal: the forecast request's day
 * count, the daily and hourly chart series, the unit-dependent temperature
 * line and the hourly axis label.
 */
module CityModal {
  import opened Wrappers
  import opened Text
  import opened WeatherData

  /** The forecast range selected when the modal opens. */
  const DefaultRangeDays: int := 7
  /** The ranges the selector offers. */
  const RangeChoices: seq<int> := [3, 5, 7]

  /** `Math.max(rangeDays, 1)`: the `days` the modal asks the service for. */
  function RequestDays(rangeDays: int): (d: int)
    ensures d >= 1
    ensures rangeDays >= 1 ==> d == rangeDays
    ensures rangeDays < 1 ==> d == 1
  {
    if rangeDays > 1 then rangeDays else 1
  }

  /** The default range and every offered range are requested as they are. */
  lemma OfferedRangesRequestedAsIs()
    ensures RequestDays(DefaultRangeDays) == DefaultRangeDays
    ensures forall r :: r in RangeChoices ==> RequestDays(r) == r
  {
  }

  /** One point of the daily chart. */
  datatype DailyPoint = DailyPoint(date: string, avgC: Reading, avgF: Reading, precip: Reading, wind: Reading)

  /** One point of the hourly chart. */
  datatype HourlyPoint = HourlyPoint(time: string, tempC: Reading, tempF: Reading, precip: Reading, wind: Reading)

  /** The daily points of a list of days, one per day (`forecastday.map`). */
  function DailyOf(days: seq<ForecastDay>): (r: seq<DailyPoint>)
    ensures |r| == |days|
    ensures forall i :: 0 <= i < |days| ==>
      r[i].date == days[i].date && r[i].avgC == days[i].day.avgTempC && r[i].avgF == days[i].day.avgTempF &&
      r[i].precip == days[i].day.totalPrecipMm && r[i].wind == days[i].day.maxWindKph
  {
    if days == [] then []
    else
      var d := days[0];
      [DailyPoint(d.date, d.day.avgTempC, d.day.avgTempF, d.day.totalPrecipMm, d.day.maxWindKph)] + DailyOf(days[1..])
  }

  /** `dailyData`: empty without a forecast, one point per forecast day otherwise. */
  function DailyData(forecast: Option<Forecast>): (r: seq<DailyPoint>)
    ensures forecast.None? ==> r == []
    ensures forecast.Some? ==> r == DailyOf(forecast.value.forecastday)
  {
    match forecast
    case None => []
    case Some(f) => DailyOf(f.forecastday)
  }

  /** `time.replace(" ", "T")`: the service's "YYYY-MM-DD HH:MM" made ISO-like. */
  function HourlyTime(time: string): (r: string)
    ensures |r| == |time|
    ensures ' ' !in time ==> r == time
    ensures ' ' in time ==>
      var k := IndexOf(time, ' ');
      r[k] == 'T' && forall j :: 0 <= j < |time| && j != k ==> r[j] == time[j]
  {
    ReplaceFirst(time, ' ', 'T')
  }

  /** The hourly point of one sample. */
  function HourPoint(h: Hour): (p: HourlyPoint)
    ensures |p.time| == |h.time| && p.time == HourlyTime(h.time)
    ensures p.tempC == h.tempC && p.tempF == h.tempF && p.precip == h.precipMm && p.wind == h.windKph
  {
    HourlyPoint(HourlyTime(h.time), h.tempC, h.tempF, h.precipMm, h.windKph)
  }

  /** The hourly points of one day, in hour order (`d.hour.map`). */
  function HoursOf(hours: seq<Hour>): (r: seq<HourlyPoint>)
    ensures |r| == |hours|
    ensures forall j :: 0 <= j < |hours| ==> r[j] == HourPoint(hours[j])
  {
    if hours == [] then [] else [HourPoint(hours[0])] + HoursOf(hours[1..])
  }

  /** The number of hourly samples over a list of days. */
  function TotalHours(days: seq<ForecastDay>): nat {
    if days == [] then 0 else |days[0].hour| + TotalHours(days[1..])
  }

  /** The hourly points of a list of days, day by day (`forecastday.flatMap`). */
  function HourlyOf(days: seq<ForecastDay>): (r: seq<HourlyPoint>)
    ensures |r| == TotalHours(days)
  {
    if days == [] then [] else HoursOf(days[0].hour) + HourlyOf(days[1..])
  }

  /** `hourlyData`: empty without a forecast, every hour of every day otherwise. */
  function HourlyData(forecast: Option<Forecast>): (r: seq<HourlyPoint>)
    ensures forecast.None? ==> r == []
    ensures forecast.Some? ==> |r| == TotalHours(forecast.value.forecastday)
    ensures forecast.Some? ==> r == HourlyOf(forecast.value.forecastday)
  {
    match forecast
    case None => []
    case Some(f) => HourlyOf(f.forecastday)
  }

  /**
   * Day-major order: hour h of day d sits after all hours of the days
   * before d, at offset h among its own day's hours.
   */
  lemma {:induction false} HourlyAt(days: seq<ForecastDay>, d: nat, h: nat)
    requires d < |days| && h < |days[d].hour|
    ensures TotalHours(days[..d]) + h < |HourlyOf(days)|
    ensures HourlyOf(days)[TotalHours(days[..d]) + h] == HourPoint(days[d].hour[h])
  {
    if d == 0 {
      assert TotalHours(days[..0]) == 0;
    } else {
      HourlyAt(days[1..], d - 1, h);
      assert days[..d][1..] == days[1..][..d - 1];
      assert TotalHours(days[..d]) == |days[0].hour| + TotalHours(days[1..][..d - 1]);
    }
  }

  /** The temperature a daily point plots: `avgC` for unit "C", `avgF` for any other unit. */
  function DailyTemp(p: DailyPoint, unit: string): (r: Reading)
    ensures unit == "C" ==> r == p.avgC
    ensures unit != "C" ==> r == p.avgF
  {
    if unit == "C" then p.avgC else p.avgF
  }

  /** The temperature an hourly point plots: `tempC` for unit "C", `tempF` for any other unit. */
  function HourlyTemp(p: HourlyPoint, unit: string): (r: Reading)
    ensures unit == "C" ==> r == p.tempC
    ensures unit != "C" ==> r == p.tempF
  {
    if unit == "C" then p.tempC else p.tempF
  }

  /** The daily line shows each day's average in the selected unit. */
  lemma DailyLine(f: Forecast, unit: string, i: nat)
    requires i < |f.forecastday|
    ensures i < |DailyData(Some(f))|
    ensures DailyTemp(DailyData(Some(f))[i], unit) ==
      if unit == "C" then f.forecastday[i].day.avgTempC else f.forecastday[i].day.avgTempF
  {
  }

  /** The hourly line shows each hour's temperature in the selected unit, day-major. */
  lemma HourlyLine(f: Forecast, unit: string, d: nat, h: nat)
    requires d < |f.forecastday| && h < |f.forecastday[d].hour|
    ensures var p := TotalHours(f.forecastday[..d]) + h;
      p < |HourlyData(Some(f))| &&
      HourlyTemp(HourlyData(Some(f))[p], unit) ==
        if unit == "C" then f.forecastday[d].hour[h].tempC else f.forecastday[d].hour[h].tempF
  {
    HourlyAt(f.forecastday, d, h);
  }

  /** `t.slice(11, 16)`: the hourly axis label, at most five characters. */
  function TickLabel(t: string): (r: string)
    ensures |r| <= 5
    ensures |t| >= 16 ==> r == t[11..16]
    ensures |t| <= 11 ==> r == []
    ensures 11 <= |t| <= 16 ==> r == t[11..]
  {
    Slice(t, 11, 16)
  }

  /**
   * A service time "YYYY-MM-DD HH:MM" becomes "YYYY-MM-DDTHH:MM" on the
   * chart, and its axis label is "HH:MM".
   */
  lemma ServiceTimeLabel(date: string, clock: string)
    requires |date| == 10 && ' ' !in date && |clock| == 5
    ensures HourlyTime(date + " " + clock) == date + "T" + clock
    ensures TickLabel(HourlyTime(date + " " + clock)) == clock
  {
    var t := date + " " + clock;
    assert t[10] == ' ';
    assert forall j :: 0 <= j < 10 ==> t[j] == date[j];
    var k := IndexOf(t, ' ');
    assert k == 10;
    var r := HourlyTime(t);
    assert r == date + "T" + clock by {
      assert |r| == |date + "T" + clock|;
      forall j | 0 <= j < |r| ensures r[j] == (date + "T" + clock)[j] {
        if j != 10 { assert r[j] == t[j]; }
      }
    }
    assert r[11..16] == clock;
  }
}
