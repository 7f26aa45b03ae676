/** The lightweight rule-based classifier: threshold points from temperature,
    humidity and PM2.5, and a binary high-risk label. */
module RiskMl {

  /** The points the five threshold rules award; every threshold is strict. */
  function Points(temp: real, humidity: real, pm25: real): (p: nat)
    ensures p <= 8
  {
    (if temp > 30.0 then 1 else 0) + (if temp > 35.0 then 1 else 0)
    + (if humidity > 80.0 then 1 else 0)
    + (if pm25 > 50.0 then 2 else 0) + (if pm25 > 100.0 then 3 else 0)
  }

  /** The label is 1 (high risk) when the rules award at least three points. */
  const HighRiskPoints: nat := 3

  /** `RiskEngine.predict_risk`: accumulates the points rule by rule, then labels. */
  method PredictRisk(temp: real, humidity: real, pm25: real) returns (risk: int)
    ensures risk == 0 || risk == 1
    ensures risk == 1 <==> Points(temp, humidity, pm25) >= HighRiskPoints
  {
    var score := 0;
    if temp > 30.0 { score := score + 1; }
    if temp > 35.0 { score := score + 1; }
    if humidity > 80.0 { score := score + 1; }
    if pm25 > 50.0 { score := score + 2; }
    if pm25 > 100.0 { score := score + 3; }
    risk := if score >= HighRiskPoints then 1 else 0;
  }

  /** Raising any one feature never lowers the points, hence never the label. */
  lemma PointsMonotone(t: real, h: real, p: real, t': real, h': real, p': real)
    requires t <= t' && h <= h' && p <= p'
    ensures Points(t, h, p) <= Points(t', h', p')
  {
  }

  /** At exactly 30 degrees, 80% humidity and 50 ug/m3 no rule fires. */
  lemma ThresholdsAreStrict()
    ensures Points(30.0, 80.0, 50.0) == 0
  {
  }

  /** PM2.5 above 100 alone reaches the high-risk label; between 50 and 100
      alone it gives two points, which stays low risk. */
  lemma Pm25Alone(t: real, h: real, p: real)
    requires t <= 30.0 && h <= 80.0
    ensures p > 100.0 ==> Points(t, h, p) == 5
    ensures 50.0 < p <= 100.0 ==> Points(t, h, p) == 2
    ensures p <= 50.0 ==> Points(t, h, p) == 0
  {
  }

  /** Very fine particles above 100 force label 1 whatever the weather. */
  lemma Pm25AboveHundredIsHighRisk(t: real, h: real, p: real)
    requires p > 100.0
    ensures Points(t, h, p) >= HighRiskPoints
  {
  }

  lemma Examples()
    ensures Points(36.0, 85.0, 120.0) == 8
    ensures Points(20.0, 50.0, 10.0) == 0
  {
  }
}
