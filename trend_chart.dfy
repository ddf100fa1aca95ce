/** The churn-rate-over-time chart
    (project/src/components/charts/ChurnTrendChart.tsx). Parsing a timestamp
    and printing its local date are a parameter `dateKey`, which answers None
    for a timestamp that does not parse. */
module TrendChart {
  import opened Common
  import opened Domain
  import opened Grouping

  datatype TrendRow = TrendRow(date: string, churnRate: real, predictions: nat)

  function Observe(data: seq<ChurnPrediction>, dateKey: string -> Option<string>): (s: seq<Obs>)
    ensures |s| == |data|
    ensures forall i :: 0 <= i < |data| ==>
      s[i] == Obs(dateKey(data[i].timestamp), data[i].prediction == ChurnLabel)
  {
    seq(|data|, i requires 0 <= i < |data| => Obs(dateKey(data[i].timestamp), data[i].prediction == ChurnLabel))
  }

  /** `Object.entries(grouped).map(...)` */
  function Rows(order: seq<string>, groups: map<string, Tally>): (rows: seq<TrendRow>)
    requires forall k :: k in order ==> k in groups
    ensures |rows| == |order|
    ensures forall i :: 0 <= i < |order| ==>
      var t := groups[order[i]];
      rows[i] == TrendRow(order[i], if t.total > 0 then t.churns as real / t.total as real else 0.0, t.total)
  {
    seq(|order|, i requires 0 <= i < |order| =>
      var t := groups[order[i]];
      TrendRow(order[i], if t.total > 0 then t.churns as real / t.total as real else 0.0, t.total))
  }

  /** The chart rows: one per date that occurs, in order of first appearance,
      with the number of predictions on that date and the share of them that
      are churns. */
  method ChurnTrend(data: seq<ChurnPrediction>, dateKey: string -> Option<string>) returns (rows: seq<TrendRow>)
    ensures var s := Observe(data, dateKey);
      && |rows| == |Keys(s)|
      && forall i :: 0 <= i < |rows| ==>
        && rows[i].date == Keys(s)[i]
        && rows[i].predictions == Total(s, rows[i].date) >= 1
        && rows[i].churnRate == Churns(s, rows[i].date) as real / Total(s, rows[i].date) as real
        && 0.0 <= rows[i].churnRate <= 1.0
  {
    var s := Observe(data, dateKey);
    var order, groups := GroupCount(s);
    rows := Rows(order, groups);
    forall i | 0 <= i < |rows|
      ensures rows[i].predictions == Total(s, rows[i].date) >= 1
      ensures rows[i].churnRate == Churns(s, rows[i].date) as real / Total(s, rows[i].date) as real
      ensures 0.0 <= rows[i].churnRate <= 1.0
    {
      var k := order[i];
      assert groups[k] == Tally(Churns(s, k), Total(s, k));
      TotalPositive(s, k);
      ChurnsAtMostTotal(s, k);
      RateBounds(Churns(s, k), Total(s, k));
    }
  }

  /** Each date is listed once, every date that occurs is listed, and the
      per-date counts add up to the number of predictions with a valid date. */
  lemma TrendCoversValid(data: seq<ChurnPrediction>, dateKey: string -> Option<string>)
    ensures var s := Observe(data, dateKey);
      && Distinct(Keys(s))
      && (forall d :: d in Keys(s) <==> exists i :: 0 <= i < |data| && dateKey(data[i].timestamp) == Some(d))
      && SumTotals(s, Keys(s)) == Valid(s)
  {
    var s := Observe(data, dateKey);
    KeysExact(s);
    TotalsSumToValid(s);
  }

  /** A prediction whose timestamp does not parse changes nothing. */
  lemma InvalidDateSkipped(data: seq<ChurnPrediction>, p: ChurnPrediction, dateKey: string -> Option<string>)
    requires dateKey(p.timestamp).None?
    ensures Keys(Observe(data + [p], dateKey)) == Keys(Observe(data, dateKey))
    ensures forall d :: Total(Observe(data + [p], dateKey), d) == Total(Observe(data, dateKey), d)
    ensures forall d :: Churns(Observe(data + [p], dateKey), d) == Churns(Observe(data, dateKey), d)
  {
    var s := Observe(data + [p], dateKey);
    assert Init(s) == Observe(data, dateKey);
  }
}
