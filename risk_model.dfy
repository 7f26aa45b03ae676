/** The weighted-average hybrid scorer `calculate_risk_score`: an environmental
    score from temperature, AQI and humidity, blended 70/30 with a social score. */
module RiskModel {
  import opened Numeric
  import opened Values

  const DefaultTemperature: real := 25.0
  const DefaultAqi: real := 1.0
  const DefaultHumidity: real := 50.0
  /** Returned whenever the computation raises. */
  const NeutralScore: real := 5.0

  /** `min(temp / 40 * 10, 10)`: capped above at 10, with no lower floor. */
  function TempTerm(temp: real): (t: real)
    ensures t <= 10.0
    ensures temp <= 40.0 ==> t == temp / 4.0
    ensures 40.0 <= temp ==> t == 10.0
  {
    if temp / 40.0 * 10.0 <= 10.0 then temp / 40.0 * 10.0 else 10.0
  }

  /** The environmental average before clamping. */
  function RawEnvScore(temp: real, aqi: real, humidity: real): real {
    (TempTerm(temp) + aqi * 2.0 + humidity / 100.0 * 5.0) / 3.0
  }

  /** The environmental score, clamped to the [1, 10] scale. */
  function EnvScore(temp: real, aqi: real, humidity: real): (e: real)
    ensures 1.0 <= e <= 10.0
    ensures 1.0 <= RawEnvScore(temp, aqi, humidity) <= 10.0 ==> e == RawEnvScore(temp, aqi, humidity)
  {
    Clamp(1.0, 10.0, RawEnvScore(temp, aqi, humidity))
  }

  /** `round(env * 0.7 + social * 0.3, 1)`: the 70/30 blend of two sub-scores. */
  function CombinedScore(env: real, social: real): (r: real)
    ensures IsTenth(r)
    ensures env * 0.7 + social * 0.3 - 0.05 < r <= env * 0.7 + social * 0.3 + 0.05
    ensures 1.0 <= env <= 10.0 && 1.0 <= social <= 10.0 ==> 1.0 <= r <= 10.0
  {
    var blended := env * 0.7 + social * 0.3;
    if 1.0 <= blended <= 10.0 then
      RoundTenthKeepsScale(blended);
      RoundTenth(blended)
    else
      RoundTenth(blended)
  }

  /** The blend never decreases when either sub-score rises. */
  lemma CombinedScoreMonotone(env: real, social: real, env': real, social': real)
    requires env <= env' && social <= social'
    ensures CombinedScore(env, social) <= CombinedScore(env', social')
  {
    RoundTenthMonotone(env * 0.7 + social * 0.3, env' * 0.7 + social' * 0.3);
  }

  /** The three readings with their defaults applied, when all are numbers:
      an absent reading never fails, only a present one that is not a number. */
  predicate Computable(environmentalData: Json, socialScore: Json): (ok: bool)
    ensures ok <==>
      && environmentalData.JObj?
      && socialScore.JNum?
      && ("temperature" in environmentalData.fields ==> environmentalData.fields["temperature"].JNum?)
      && ("aqi" in environmentalData.fields ==> environmentalData.fields["aqi"].JNum?)
      && ("humidity" in environmentalData.fields ==> environmentalData.fields["humidity"].JNum?)
  {
    && environmentalData.JObj?
    && Get(environmentalData.fields, "temperature", JNum(DefaultTemperature)).JNum?
    && Get(environmentalData.fields, "aqi", JNum(DefaultAqi)).JNum?
    && Get(environmentalData.fields, "humidity", JNum(DefaultHumidity)).JNum?
    && socialScore.JNum?
  }

  /** `calculate_risk_score(environmental_data, social_score)`: any value that
      is not a dictionary or not a number makes the arithmetic raise, and the
      catch-all returns the neutral 5.0. */
  function CalculateRiskScore(environmentalData: Json, socialScore: Json): (r: real)
    ensures IsTenth(r)
    ensures !Computable(environmentalData, socialScore) ==> r == NeutralScore
    ensures socialScore.JNum? && 1.0 <= socialScore.n <= 10.0 ==> 1.0 <= r <= 10.0
  {
    match environmentalData
    case JObj(fields) =>
      var temp := Get(fields, "temperature", JNum(DefaultTemperature));
      var aqi := Get(fields, "aqi", JNum(DefaultAqi));
      var humidity := Get(fields, "humidity", JNum(DefaultHumidity));
      if temp.JNum? && aqi.JNum? && humidity.JNum? && socialScore.JNum? then
        CombinedScore(EnvScore(temp.n, aqi.n, humidity.n), socialScore.n)
      else
        assert IsTenth(5.0) by { assert (5.0 * 10.0).Floor == 50; }
        NeutralScore
    case _ =>
      assert IsTenth(5.0) by { assert (5.0 * 10.0).Floor == 50; }
      NeutralScore
  }

  /** On well-formed inputs the result is the blend of the clamped environmental score. */
  lemma CalculateRiskScoreBlends(fields: map<string, Json>, t: real, a: real, h: real, s: real)
    requires Get(fields, "temperature", JNum(DefaultTemperature)) == JNum(t)
    requires Get(fields, "aqi", JNum(DefaultAqi)) == JNum(a)
    requires Get(fields, "humidity", JNum(DefaultHumidity)) == JNum(h)
    ensures CalculateRiskScore(JObj(fields), JNum(s)) == CombinedScore(EnvScore(t, a, h), s)
  {
  }

  /** An absent reading behaves exactly as its default: temperature 25, AQI 1, humidity 50. */
  lemma MissingFieldsDefault(fields: map<string, Json>, s: Json)
    ensures "temperature" !in fields ==>
      CalculateRiskScore(JObj(fields), s) == CalculateRiskScore(JObj(fields["temperature" := JNum(25.0)]), s)
    ensures "aqi" !in fields ==>
      CalculateRiskScore(JObj(fields), s) == CalculateRiskScore(JObj(fields["aqi" := JNum(1.0)]), s)
    ensures "humidity" !in fields ==>
      CalculateRiskScore(JObj(fields), s) == CalculateRiskScore(JObj(fields["humidity" := JNum(50.0)]), s)
  {
  }

  /** With every reading missing the environmental score is (6.25 + 2 + 2.5) / 3. */
  lemma AllDefaults(s: real)
    ensures CalculateRiskScore(JObj(map[]), JNum(s)) == CombinedScore(43.0 / 12.0, s)
  {
  }

  /** A higher social score never lowers the hybrid score. */
  lemma CalculateRiskScoreMonotoneInSocial(environmentalData: Json, s: real, s': real)
    requires s <= s'
    ensures CalculateRiskScore(environmentalData, JNum(s)) <= CalculateRiskScore(environmentalData, JNum(s'))
  {
    if !Computable(environmentalData, JNum(s)) {
      return;
    }
    var fields := environmentalData.fields;
    var e := EnvScore(Get(fields, "temperature", JNum(DefaultTemperature)).n,
                      Get(fields, "aqi", JNum(DefaultAqi)).n,
                      Get(fields, "humidity", JNum(DefaultHumidity)).n);
    CombinedScoreMonotone(e, s, e, s');
  }

  /** Below zero degrees the temperature term is negative: there is no floor. */
  lemma TempTermHasNoFloor()
    ensures TempTerm(-40.0) == -10.0
  {
  }
}
