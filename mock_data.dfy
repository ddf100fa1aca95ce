/** The client-side heuristic scorer: six signed feature contributions from
    fixed rules, ranked by magnitude, and a clamped probability with its label
    (project/src/services/mockData.ts). */
module MockData {
  import opened Common
  import opened Domain
  import StableSort

  /** The string the scorer compares the payment method with. The form's own
      value is "Electronic check", with a lower-case c. */
  const ElectronicCheckLiteral := "Electronic Check"

  /** The six contributions in the order the source declares them. */
  function DeclaredFeatures(c: CustomerData): seq<ShapValue> {
    [ ShapValue("Monthly Charges", (c.monthlyCharges - 50.0) * 0.01,
                if c.monthlyCharges > 70.0 then Positive else Negative),
      ShapValue("Tenure", (50 - c.tenure) as real * 0.008,
                if c.tenure < 12 then Positive else Negative),
      ShapValue("Contract Type", if c.contract == "Month-to-month" then 0.15 else -0.12,
                if c.contract == "Month-to-month" then Positive else Negative),
      ShapValue("Payment Method", if c.paymentMethod == ElectronicCheckLiteral then 0.12 else -0.08,
                if c.paymentMethod == ElectronicCheckLiteral then Positive else Negative),
      ShapValue("Online Security", if c.onlineSecurity == "No" then 0.06 else -0.04,
                if c.onlineSecurity == "No" then Positive else Negative),
      ShapValue("Tech Support", if c.techSupport == "No" then 0.05 else -0.03,
                if c.techSupport == "No" then Positive else Negative) ]
  }

  /** `slice(0, n)` */
  function Take<T>(s: seq<T>, n: nat): (r: seq<T>)
    ensures |r| == if |s| <= n then |s| else n
    ensures forall k :: 0 <= k < |r| ==> r[k] == s[k]
  {
    if |s| <= n then s else s[..n]
  }

  /** generateMockShapValues */
  function GenerateMockShapValues(c: CustomerData): seq<ShapValue> {
    Take(StableSort.Sort(Magnitude, DeclaredFeatures(c)), 6)
  }

  /** `Math.max(0.05, Math.min(0.95, x))` */
  function Clamp(x: real): real {
    if x > 0.95 then 0.95 else if x < 0.05 then 0.05 else x
  }

  /** The probability before it is rounded for storage. */
  function MockProbability(c: CustomerData): real {
    Clamp(0.3 + StableSort.Sum(Contribution, GenerateMockShapValues(c)))
  }

  /** `Math.round(p * 1000) / 1000`, with `Math.round` rounding halves upwards. */
  function RoundTo3(p: real): real {
    (p * 1000.0 + 0.5).Floor as real / 1000.0
  }

  /** generateMockPrediction. The clock (`Date.now()` as text, and the ISO
      time) and the random suffix are parameters. */
  function GenerateMockPrediction(c: CustomerData, clockText: string, randomText: string, isoNow: string): ChurnPrediction {
    var p := MockProbability(c);
    ChurnPrediction(
      "pred_" + clockText + "_" + randomText,
      isoNow,
      c,
      if p > 0.5 then ChurnLabel else NoChurnLabel,
      RoundTo3(p),
      GenerateMockShapValues(c),
      None)
  }

  /** The result holds exactly the six declared contributions (as a
      permutation), and `slice(0, 6)` drops nothing. */
  lemma MockShapIsPermutation(c: CustomerData)
    ensures |GenerateMockShapValues(c)| == 6
    ensures multiset(GenerateMockShapValues(c)) == multiset(DeclaredFeatures(c))
    ensures forall v :: v in GenerateMockShapValues(c) <==> v in DeclaredFeatures(c)
  {
    var d := DeclaredFeatures(c);
    StableSort.SortPermutation(Magnitude, d);
    assert forall v :: v in GenerateMockShapValues(c) <==> v in multiset(d);
  }

  /** Ranked by non-increasing magnitude; equal magnitudes keep the declared order. */
  lemma MockShapRanked(c: CustomerData)
    ensures StableSort.SortedDesc(Magnitude, GenerateMockShapValues(c))
    ensures forall k :: StableSort.WithKey(Magnitude, GenerateMockShapValues(c), k)
                        == StableSort.WithKey(Magnitude, DeclaredFeatures(c), k)
  {
    var d := DeclaredFeatures(c);
    StableSort.SortIsSorted(Magnitude, d);
    forall k ensures StableSort.WithKey(Magnitude, GenerateMockShapValues(c), k)
                     == StableSort.WithKey(Magnitude, d, k) {
      StableSort.SortStable(Magnitude, d, k);
    }
  }

  /** For the four categorical features the impact is positive exactly when
      the positive constant was chosen. */
  lemma MockCategoricalImpact(c: CustomerData, v: ShapValue)
    requires v in GenerateMockShapValues(c)
    requires v.feature in {"Contract Type", "Payment Method", "Online Security", "Tech Support"}
    ensures v.impact == Positive <==> v.value > 0.0
    ensures v.feature == "Contract Type" ==> (v.value == 0.15 <==> c.contract == "Month-to-month")
    ensures v.feature == "Payment Method" ==> (v.value == 0.12 <==> c.paymentMethod == ElectronicCheckLiteral)
    ensures v.feature == "Online Security" ==> (v.value == 0.06 <==> c.onlineSecurity == "No")
    ensures v.feature == "Tech Support" ==> (v.value == 0.05 <==> c.techSupport == "No")
  {
    MockShapIsPermutation(c);
  }

  /** For the two numeric features the impact follows its own threshold, not the sign. */
  lemma MockNumericImpact(c: CustomerData, v: ShapValue)
    requires v in GenerateMockShapValues(c)
    ensures v.feature == "Monthly Charges" ==>
      v.value == (c.monthlyCharges - 50.0) * 0.01 && (v.impact == Positive <==> c.monthlyCharges > 70.0)
    ensures v.feature == "Tenure" ==>
      v.value == (50 - c.tenure) as real * 0.008 && (v.impact == Positive <==> c.tenure < 12)
  {
    MockShapIsPermutation(c);
  }

  /** Charges of 60 and a tenure of 30 both raise the score, yet both are
      labelled negative. */
  lemma MockNumericSignMismatch(c: CustomerData)
    requires c.monthlyCharges == 60.0 && c.tenure == 30
    ensures DeclaredFeatures(c)[0].value > 0.0 && DeclaredFeatures(c)[0].impact == Negative
    ensures DeclaredFeatures(c)[1].value > 0.0 && DeclaredFeatures(c)[1].impact == Negative
  {
  }

  /** The form's own spelling "Electronic check" gets the negative constant. */
  lemma MockPaymentTypedValue(c: CustomerData)
    requires c.paymentMethod == "Electronic check"
    ensures DeclaredFeatures(c)[3] == ShapValue("Payment Method", -0.08, Negative)
  {
  }

  /** The probability is `0.3` plus all six contributions, clamped to [0.05, 0.95]. */
  lemma MockProbabilityClamped(c: CustomerData)
    ensures var raw := 0.3 + StableSort.Sum(Contribution, DeclaredFeatures(c));
      MockProbability(c) == if raw > 0.95 then 0.95 else if raw < 0.05 then 0.05 else raw
    ensures 0.05 <= MockProbability(c) <= 0.95
  {
    MockShapIsPermutation(c);
    StableSort.SortSum(Magnitude, Contribution, DeclaredFeatures(c));
  }

  /** The label is decided on the unrounded probability, strictly above 0.5;
      the stored probability is that value rounded to three decimals and stays
      inside the clamp. */
  lemma MockPredictionLabel(c: CustomerData, clockText: string, randomText: string, isoNow: string)
    ensures var r := GenerateMockPrediction(c, clockText, randomText, isoNow);
      && (r.prediction == ChurnLabel <==> MockProbability(c) > 0.5)
      && (r.prediction == ChurnLabel || r.prediction == NoChurnLabel)
      && r.probability == RoundTo3(MockProbability(c))
      && -0.0005 < r.probability - MockProbability(c) <= 0.0005
      && 0.05 <= r.probability <= 0.95
  {
    MockProbabilityClamped(c);
    var p := MockProbability(c);
    var n := (p * 1000.0 + 0.5).Floor;
    assert 50 <= n <= 950 by {
      assert 50.5 <= p * 1000.0 + 0.5;
      assert p * 1000.0 + 0.5 < 951.0;
    }
  }

  /** A raw probability of 0.5002 is stored as 0.5 but labelled "Churn". */
  lemma MockLabelBeforeRounding()
    ensures var c := CustomerData(0, 57.02, 0.0, "Two year", "Credit card", "DSL", "Yes", "Yes",
                                  "No", "No", "No", "No", "No");
      var r := GenerateMockPrediction(c, "0", "x", "");
      r.prediction == ChurnLabel && r.probability == 0.5
  {
    var c := CustomerData(0, 57.02, 0.0, "Two year", "Credit card", "DSL", "Yes", "Yes",
                          "No", "No", "No", "No", "No");
    MockProbabilityClamped(c);
    assert MockProbability(c) == 0.5002;
    assert (0.5002 * 1000.0 + 0.5).Floor == 500;
  }

  /** Only `id` and `timestamp` depend on the clock and the random suffix;
      every id starts with "pred_". */
  lemma MockPredictionDeterministic(c: CustomerData, clock1: string, rand1: string, iso1: string,
                                    clock2: string, rand2: string, iso2: string)
    ensures GenerateMockPrediction(c, clock1, rand1, iso1).prediction
         == GenerateMockPrediction(c, clock2, rand2, iso2).prediction
    ensures GenerateMockPrediction(c, clock1, rand1, iso1).probability
         == GenerateMockPrediction(c, clock2, rand2, iso2).probability
    ensures GenerateMockPrediction(c, clock1, rand1, iso1).shapValues
         == GenerateMockPrediction(c, clock2, rand2, iso2).shapValues
    ensures GenerateMockPrediction(c, clock1, rand1, iso1).customerData == c
    ensures GenerateMockPrediction(c, clock1, rand1, iso1).timestamp == iso1
    ensures StartsWith(GenerateMockPrediction(c, clock1, rand1, iso1).id, "pred_")
  {
  }
}
