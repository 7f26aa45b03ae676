/** The risk aggregator (`RiskEngine.analyze_risk`): the error guard, the
    classifier's label with its fallback, the location default, the 70/30
    combination, the severity table and the assembled result.
    The normalised data is a dictionary; the social and environmental
    collaborators are given as functions of the values they are called with. */
module RiskEngine {
  import opened Wrappers
  import opened Values
  import RiskMl
  import RiskModel
  import DataService

  // ---------------------------------------------------------------- severity

  datatype Level = Low | Moderate | High | Critical

  function Rank(level: Level): nat {
    match level
    case Low => 0
    case Moderate => 1
    case High => 2
    case Critical => 3
  }

  /** The fixed severity table: at least 8 Critical, 6 High, 4 Moderate, else Low. */
  function Severity(score: real): (level: Level)
    ensures level == Critical <==> 8.0 <= score
    ensures level == High <==> 6.0 <= score < 8.0
    ensures level == Moderate <==> 4.0 <= score < 6.0
    ensures level == Low <==> score < 4.0
  {
    if score >= 8.0 then Critical
    else if score >= 6.0 then High
    else if score >= 4.0 then Moderate
    else Low
  }

  /** A higher score never gives a lower severity. */
  lemma SeverityMonotone(score: real, score': real)
    requires score <= score'
    ensures Rank(Severity(score)) <= Rank(Severity(score'))
  {
  }

  lemma SeverityBoundaries()
    ensures Severity(8.0) == Critical && Severity(7.9) == High && Severity(7.999) == High
    ensures Severity(6.0) == High && Severity(5.9) == Moderate
    ensures Severity(4.0) == Moderate && Severity(3.9) == Low && Severity(3.999) == Low
  {
  }

  // ---------------------------------------------------------------- records

  datatype MlLabel = HighRisk | LowRisk | Unavailable
  datatype MlPrediction = MlPrediction(riskLabel: MlLabel, rawValue: int)

  /** What the environmental collaborator returns: `score`, `level`, `factors`. */
  datatype BaseAssessment = BaseAssessment(score: real, level: string, factors: seq<string>)
  /** What the social collaborator returns; `score` is the part combined. */
  datatype SocialOverlay = SocialOverlay(score: real, severity: string, sentimentAverage: real)

  datatype EnvironmentalBase = EnvironmentalBase(score: real, levelLabel: string)

  datatype RiskResult = RiskResult(
    score: real,
    severityLabel: Level,
    environmentalBase: EnvironmentalBase,
    socialOverlay: SocialOverlay,
    mlPrediction: MlPrediction,
    contributingFactors: seq<string>,
    aggregatedMetrics: map<string, Json>,
    rawData: map<string, Json>)

  /** The exceptions `analyze_risk` lets escape. */
  datatype Fault =
    | ErrorEntry(detail: Json)    // the data carried an "error" entry
    | NotAMapping(key: string)    // `.get` called on a value that is not a dictionary
    | MissingKey(key: string)     // `data[key]` on an absent key

  const DefaultLocation: string := "Local Area"

  // ---------------------------------------------------------------- pieces

  /** The classifier's three features, when present and numeric; otherwise the
      call inside the `try` raises and the fallback is taken. */
  function MlFeatures(data: map<string, Json>): (f: Option<(real, real, real)>)
    ensures f.Some? <==>
      && "temperature" in data && data["temperature"].JNum?
      && "humidity" in data && data["humidity"].JNum?
      && "pm25" in data && data["pm25"].JNum?
    ensures f.Some? ==> f.value == (data["temperature"].n, data["humidity"].n, data["pm25"].n)
  {
    if && "temperature" in data && data["temperature"].JNum?
       && "humidity" in data && data["humidity"].JNum?
       && "pm25" in data && data["pm25"].JNum?
    then Some((data["temperature"].n, data["humidity"].n, data["pm25"].n))
    else None
  }

  /** `data.get("raw_weather", {}).get("name", "Local Area")`. */
  function LocationName(data: map<string, Json>): (r: Result<Json, Fault>)
    ensures "raw_weather" !in data ==> r == Success(JStr(DefaultLocation))
    ensures "raw_weather" in data && !data["raw_weather"].JObj? ==> r == Failure(NotAMapping("raw_weather"))
    ensures "raw_weather" in data && data["raw_weather"].JObj? ==>
      r == Success(Get(data["raw_weather"].fields, "name", JStr(DefaultLocation)))
  {
    match Get(data, "raw_weather", JObj(map[]))
    case JObj(weather) => Success(Get(weather, "name", JStr(DefaultLocation)))
    case _ => Failure(NotAMapping("raw_weather"))
  }

  /** The first exception `analyze_risk` raises on `data`, if any: the `error`
      entry first, then a raw weather value that is not a dictionary, then a
      missing raw weather record, then a missing raw air-quality record. */
  function FaultOf(data: map<string, Json>): (fault: Option<Fault>)
    ensures "error" in data ==> fault == Some(ErrorEntry(data["error"]))
    ensures "error" !in data && "raw_weather" in data && !data["raw_weather"].JObj? ==>
      fault == Some(NotAMapping("raw_weather"))
    ensures "error" !in data && "raw_weather" !in data ==> fault == Some(MissingKey("raw_weather"))
    ensures "error" !in data && "raw_weather" in data && data["raw_weather"].JObj? && "raw_aqi" !in data ==>
      fault == Some(MissingKey("raw_aqi"))
    ensures fault.None? <==>
      "error" !in data && "raw_weather" in data && data["raw_weather"].JObj? && "raw_aqi" in data
  {
    if "error" in data then Some(ErrorEntry(data["error"]))
    else if LocationName(data).Failure? then Some(LocationName(data).error)
    else if "raw_weather" !in data then Some(MissingKey("raw_weather"))
    else if "raw_aqi" !in data then Some(MissingKey("raw_aqi"))
    else None
  }

  // ---------------------------------------------------------------- aggregation

  /** `RiskEngine.analyze_risk` on the normalised `data`, with the social
      collaborator `socialStress` (called with the location name) and the
      environmental collaborator `assess` (called with the raw records). */
  method AnalyzeRisk(
    data: map<string, Json>,
    socialStress: Json -> SocialOverlay,
    assess: (Json, Json) -> BaseAssessment)
    returns (r: Result<RiskResult, Fault>)
    ensures "error" in data ==> r == Failure(ErrorEntry(data["error"]))
    ensures r.Failure? <==> FaultOf(data).Some?
    ensures r.Failure? ==> r.error == FaultOf(data).value
    ensures r.Success? ==>
      var base := assess(data["raw_weather"], data["raw_aqi"]);
      var social := socialStress(LocationName(data).value);
      && r.value.score == RiskModel.CombinedScore(base.score, social.score)
      && (1.0 <= base.score <= 10.0 && 1.0 <= social.score <= 10.0 ==> 1.0 <= r.value.score <= 10.0)
      && r.value.severityLabel == Severity(r.value.score)
      && r.value.environmentalBase == EnvironmentalBase(base.score, base.level)
      && r.value.socialOverlay == social
      && r.value.contributingFactors == base.factors
      && r.value.aggregatedMetrics == data
      && r.value.rawData == data
    ensures r.Success? ==>
      var ml := r.value.mlPrediction;
      && (ml.riskLabel == Unavailable <==> MlFeatures(data).None?)
      && (ml.riskLabel == HighRisk <==>
            MlFeatures(data).Some? &&
            var (t, h, p) := MlFeatures(data).value; RiskMl.Points(t, h, p) >= RiskMl.HighRiskPoints)
      && ml.rawValue == (if ml.riskLabel == HighRisk then 1 else 0)
  {
    if "error" in data {
      return Failure(ErrorEntry(data["error"]));
    }

    var mlRiskVal: int;
    var mlLabel: MlLabel;
    match MlFeatures(data) {
      case Some((temp, humidity, pm25)) =>
        mlRiskVal := RiskMl.PredictRisk(temp, humidity, pm25);
        mlLabel := if mlRiskVal == 1 then HighRisk else LowRisk;
      case None =>
        mlRiskVal := 0;
        mlLabel := Unavailable;
    }

    var locationName := LocationName(data);
    if locationName.Failure? {
      return Failure(locationName.error);
    }
    var socialData := socialStress(locationName.value);

    if "raw_weather" !in data {
      return Failure(MissingKey("raw_weather"));
    }
    if "raw_aqi" !in data {
      return Failure(MissingKey("raw_aqi"));
    }
    var baseAssessment := assess(data["raw_weather"], data["raw_aqi"]);
    var envScore := baseAssessment.score;
    var socialScore := socialData.score;
    var combinedScore := RiskModel.CombinedScore(envScore, socialScore);

    var finalSeverity := Low;
    if combinedScore >= 8.0 {
      finalSeverity := Critical;
    } else if combinedScore >= 6.0 {
      finalSeverity := High;
    } else if combinedScore >= 4.0 {
      finalSeverity := Moderate;
    }

    r := Success(RiskResult(
      score := combinedScore,
      severityLabel := finalSeverity,
      environmentalBase := EnvironmentalBase(envScore, baseAssessment.level),
      socialOverlay := socialData,
      mlPrediction := MlPrediction(mlLabel, mlRiskVal),
      contributingFactors := baseAssessment.factors,
      aggregatedMetrics := data,
      rawData := data));
  }

  /** The snapshot normaliser never produces "error", "raw_weather" or "raw_aqi".
      With numeric readings (the fields of `Metrics` are reals) its output reaches
      the classifier, takes the default location, and then raises on the missing
      raw weather record. */
  lemma NormalisedDataLacksRawRecords(m: DataService.Metrics)
    ensures "error" !in DataService.ToDict(m)
    ensures MlFeatures(DataService.ToDict(m)) == Some((m.temperature, m.humidity, m.pm25))
    ensures LocationName(DataService.ToDict(m)) == Success(JStr(DefaultLocation))
    ensures FaultOf(DataService.ToDict(m)) == Some(MissingKey("raw_weather"))
  {
  }

  /** An environmental score of 8 and a social score of 4 combine to 6.8, High. */
  lemma CombinedExample()
    ensures RiskModel.CombinedScore(8.0, 4.0) == 6.8
    ensures Severity(6.8) == High
  {
  }
}
