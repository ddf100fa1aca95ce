/** The verdict badge and risk level of a prediction
    (project/src/components/prediction/PredictionResult.tsx) and the
    probability gauge (project/src/components/prediction/ProbabilityGauge.tsx). */
module Risk {
  import opened Domain

  datatype RiskLevel = Low | Medium | High

  datatype GaugeColor = Green | Amber | Red

  /** `prediction.prediction === 'Churn'` */
  function IsChurn(p: ChurnPrediction): (churn: bool)
    ensures churn <==> p.prediction == ChurnLabel
  {
    p.prediction == ChurnLabel
  }

  /** The badge follows the stored label alone: any two predictions with the
      same label show the same badge, whatever their probabilities. */
  lemma IsChurnIgnoresProbability(p: ChurnPrediction, q: ChurnPrediction)
    requires p.prediction == q.prediction
    ensures IsChurn(p) == IsChurn(q)
  {
  }

  function RiskOf(probability: real): RiskLevel {
    if probability > 0.7 then High else if probability > 0.4 then Medium else Low
  }

  function Rank(r: RiskLevel): nat {
    match r
    case Low => 0
    case Medium => 1
    case High => 2
  }

  /** Each level is a band of probabilities; the three bands cover all values
      without overlap. */
  lemma RiskBands(p: real)
    ensures RiskOf(p) == High <==> p > 0.7
    ensures RiskOf(p) == Medium <==> 0.4 < p <= 0.7
    ensures RiskOf(p) == Low <==> p <= 0.4
  {
  }

  /** A higher probability never gives a lower level. */
  lemma RiskMonotone(p: real, q: real)
    requires p <= q
    ensures Rank(RiskOf(p)) <= Rank(RiskOf(q))
  {
  }

  /** getColor */
  function GetColor(prob: real): GaugeColor {
    if prob > 0.7 then Red else if prob > 0.4 then Amber else Green
  }

  function LevelColor(r: RiskLevel): GaugeColor {
    match r
    case High => Red
    case Medium => Amber
    case Low => Green
  }

  /** The gauge colour is the colour of the risk level, for every probability. */
  lemma ColorMatchesRisk(p: real)
    ensures GetColor(p) == LevelColor(RiskOf(p))
    ensures GetColor(p) == Red <==> p > 0.7
    ensures GetColor(p) == Amber <==> 0.4 < p <= 0.7
    ensures GetColor(p) == Green <==> p <= 0.4
  {
  }

  /** `probability * 100` */
  function Percentage(probability: real): (pct: real)
    ensures 0.0 <= probability <= 1.0 ==> 0.0 <= pct <= 100.0
    ensures pct / 100.0 == probability
  {
    probability * 100.0
  }

  /** `strokeDasharray - strokeDasharray * probability` for a circle of
      circumference `c`. */
  function DashOffset(c: real, probability: real): real {
    c - c * probability
  }

  /** The arc left undrawn: all of it at 0, none at 1, the complement of the
      drawn share in between, and it shrinks as the probability grows. */
  lemma DashOffsetRange(c: real, p: real, q: real)
    requires c > 0.0
    requires p <= q
    ensures DashOffset(c, 0.0) == c && DashOffset(c, 1.0) == 0.0
    ensures DashOffset(c, p) == c * (1.0 - p)
    ensures DashOffset(c, q) <= DashOffset(c, p)
    ensures 0.0 <= p <= 1.0 ==> 0.0 <= DashOffset(c, p) <= c
  {
    assert c * p <= c * q;
    if 0.0 <= p <= 1.0 {
      assert c * p <= c;
    }
  }
}
