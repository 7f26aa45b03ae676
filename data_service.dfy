/** Snapshot normalisation (`get_environmental_data`): the weather and air
    quality records are flattened into one fully populated metrics record.
    The two fetched records and the clock reading are inputs. */
module DataService {
  import opened Wrappers
  import opened Numeric
  import opened Values

  /** The weather record's `main` block; an absent key is `None`. */
  datatype MainBlock = MainBlock(temp: Option<real>, humidity: Option<real>)
  datatype WindBlock = WindBlock(speed: Option<real>)
  /** The `rain` block; `oneHour` is its `"1h"` entry. */
  datatype RainBlock = RainBlock(oneHour: Option<real>)
  datatype WeatherRecord = WeatherRecord(
    main: Option<MainBlock>, wind: Option<WindBlock>, rain: Option<RainBlock>, uvi: Option<real>)

  datatype Components = Components(pm2_5: Option<real>)
  /** One entry of the air quality provider's `list` (its `main.aqi` index is never read). */
  datatype AqiEntry = AqiEntry(components: Option<Components>)
  /** The air quality record: a top-level `components` block and the provider's `list`. */
  datatype AqiRecord = AqiRecord(components: Option<Components>, list: seq<AqiEntry>)

  /** The clock reading `datetime.now()` supplies. */
  datatype Clock = Clock(hour: int, weekday: int)

  /** The flat metrics record; every field is always present. */
  datatype Metrics = Metrics(
    temperature: real, humidity: real, pm25: real, windSpeed: real, rainfall: real,
    uvIndex: real, hourOfDay: int, dayOfWeek: int, threeDayTempAvg: real, sevenDayRainTotal: real)

  const DefaultUvIndex: real := 5.0

  /** `record.get(block, {}).get(key, 0)` for a nested reading. */
  function Reading(block: Option<Option<real>>): real {
    match block
    case Some(Some(v)) => v
    case _ => 0.0
  }

  function Temperature(weather: WeatherRecord): real {
    Reading(if weather.main.Some? then Some(weather.main.value.temp) else None)
  }

  function Rainfall(weather: WeatherRecord): real {
    Reading(if weather.rain.Some? then Some(weather.rain.value.oneHour) else None)
  }

  /** `get_environmental_data`: every field read with its own default, plus
      the two rounded derived fields. */
  function GetEnvironmentalData(weather: WeatherRecord, aqi: AqiRecord, now: Clock): (m: Metrics)
    ensures weather.main.Some? && weather.main.value.temp.Some? ==> m.temperature == weather.main.value.temp.value
    ensures weather.main.None? || weather.main.value.temp.None? ==> m.temperature == 0.0
    ensures weather.main.Some? && weather.main.value.humidity.Some? ==> m.humidity == weather.main.value.humidity.value
    ensures weather.main.None? || weather.main.value.humidity.None? ==> m.humidity == 0.0
    ensures aqi.components.Some? && aqi.components.value.pm2_5.Some? ==> m.pm25 == aqi.components.value.pm2_5.value
    ensures aqi.components.None? || aqi.components.value.pm2_5.None? ==> m.pm25 == 0.0
    ensures weather.wind.Some? && weather.wind.value.speed.Some? ==> m.windSpeed == weather.wind.value.speed.value
    ensures weather.wind.None? || weather.wind.value.speed.None? ==> m.windSpeed == 0.0
    ensures weather.rain.Some? && weather.rain.value.oneHour.Some? ==> m.rainfall == weather.rain.value.oneHour.value
    ensures weather.rain.None? || weather.rain.value.oneHour.None? ==> m.rainfall == 0.0
    ensures m.uvIndex == weather.uvi.GetOr(DefaultUvIndex)
    ensures m.hourOfDay == now.hour && m.dayOfWeek == now.weekday
    ensures IsTenth(m.threeDayTempAvg)
    ensures m.temperature * 0.98 - 0.05 < m.threeDayTempAvg <= m.temperature * 0.98 + 0.05
    ensures IsTenth(m.sevenDayRainTotal)
    ensures m.rainfall * 2.5 - 0.05 < m.sevenDayRainTotal <= m.rainfall * 2.5 + 0.05
  {
    var temp := Temperature(weather);
    var pm25 := Reading(if aqi.components.Some? then Some(aqi.components.value.pm2_5) else None);
    Metrics(
      temperature := temp,
      humidity := Reading(if weather.main.Some? then Some(weather.main.value.humidity) else None),
      pm25 := pm25,
      windSpeed := Reading(if weather.wind.Some? then Some(weather.wind.value.speed) else None),
      rainfall := Rainfall(weather),
      uvIndex := weather.uvi.GetOr(DefaultUvIndex),
      hourOfDay := now.hour,
      dayOfWeek := now.weekday,
      threeDayTempAvg := RoundTenth(temp * 0.98),
      sevenDayRainTotal := RoundTenth(Rainfall(weather) * 2.5))
  }

  /** The air quality provider nests its readings under `list[0]`; since only a
      top-level `components` block is read, its PM2.5 reading is lost and 0 is used. */
  lemma ProviderPm25IsLost(weather: WeatherRecord, aqi: AqiRecord, now: Clock, p: real)
    requires aqi.components.None?
    requires |aqi.list| > 0 && aqi.list[0].components == Some(Components(Some(p)))
    ensures GetEnvironmentalData(weather, aqi, now).pm25 == 0.0
    ensures p != 0.0 ==> GetEnvironmentalData(weather, aqi, now).pm25 != p
  {
  }

  /** With every block missing, each field takes its documented default. */
  lemma EmptyRecordsDefaults(now: Clock)
    ensures GetEnvironmentalData(WeatherRecord(None, None, None, None), AqiRecord(None, []), now)
      == Metrics(0.0, 0.0, 0.0, 0.0, 0.0, 5.0, now.hour, now.weekday, 0.0, 0.0)
  {
  }

  /** The dictionary keys of the metrics record. */
  const MetricKeys: set<string> := {
    "temperature", "humidity", "pm25", "wind_speed", "rainfall", "uv_index",
    "hour_of_day", "day_of_week", "3_day_temp_avg", "7_day_rain_total"
  }

  /** The metrics record as the dictionary the backend passes around. */
  function ToDict(m: Metrics): (d: map<string, Json>)
    ensures d.Keys == MetricKeys
    ensures forall k :: k in d ==> d[k].JNum?
    ensures d["temperature"] == JNum(m.temperature)
    ensures d["humidity"] == JNum(m.humidity)
    ensures d["pm25"] == JNum(m.pm25)
    ensures d["wind_speed"] == JNum(m.windSpeed)
    ensures d["rainfall"] == JNum(m.rainfall)
    ensures d["uv_index"] == JNum(m.uvIndex)
    ensures d["hour_of_day"] == JNum(m.hourOfDay as real)
    ensures d["day_of_week"] == JNum(m.dayOfWeek as real)
    ensures d["3_day_temp_avg"] == JNum(m.threeDayTempAvg)
    ensures d["7_day_rain_total"] == JNum(m.sevenDayRainTotal)
  {
    map[
      "temperature" := JNum(m.temperature),
      "humidity" := JNum(m.humidity),
      "pm25" := JNum(m.pm25),
      "wind_speed" := JNum(m.windSpeed),
      "rainfall" := JNum(m.rainfall),
      "uv_index" := JNum(m.uvIndex),
      "hour_of_day" := JNum(m.hourOfDay as real),
      "day_of_week" := JNum(m.dayOfWeek as real),
      "3_day_temp_avg" := JNum(m.threeDayTempAvg),
      "7_day_rain_total" := JNum(m.sevenDayRainTotal)
    ]
  }
}
