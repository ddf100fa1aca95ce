/** The churn-rate-by-contract chart
    (project/src/components/charts/ChurnByContractBarChart.tsx). */
module ContractChart {
  import opened Common
  import opened Domain
  import opened Grouping

  datatype ContractRow = ContractRow(contract: string, churnRate: real)

  /** `p.customerData.contract || 'Unknown'` */
  function ContractKey(contract: string): (k: string)
    ensures contract == "" ==> k == "Unknown"
    ensures contract != "" ==> k == contract
  {
    if contract == "" then "Unknown" else contract
  }

  function Observe(predictions: seq<ChurnPrediction>): (s: seq<Obs>)
    ensures |s| == |predictions|
    ensures forall i :: 0 <= i < |predictions| ==>
      s[i] == Obs(Some(ContractKey(predictions[i].customerData.contract)), predictions[i].prediction == ChurnLabel)
  {
    seq(|predictions|, i requires 0 <= i < |predictions| =>
      Obs(Some(ContractKey(predictions[i].customerData.contract)), predictions[i].prediction == ChurnLabel))
  }

  /** `Object.values(grouped).map(...)` */
  function Rows(order: seq<string>, groups: map<string, Tally>): (rows: seq<ContractRow>)
    requires forall k :: k in order ==> k in groups
    ensures |rows| == |order|
    ensures forall i :: 0 <= i < |order| ==>
      var t := groups[order[i]];
      rows[i] == ContractRow(order[i], if t.total > 0 then (t.churns as real / t.total as real) * 100.0 else 0.0)
  {
    seq(|order|, i requires 0 <= i < |order| =>
      var t := groups[order[i]];
      ContractRow(order[i], if t.total > 0 then (t.churns as real / t.total as real) * 100.0 else 0.0))
  }

  /** One row per contract value in order of first appearance, with the
      percentage of its predictions that are churns. */
  method ChurnByContract(predictions: seq<ChurnPrediction>) returns (rows: seq<ContractRow>)
    ensures var s := Observe(predictions);
      && |rows| == |Keys(s)|
      && forall i :: 0 <= i < |rows| ==>
        && rows[i].contract == Keys(s)[i]
        && Total(s, rows[i].contract) >= 1
        && rows[i].churnRate == (Churns(s, rows[i].contract) as real / Total(s, rows[i].contract) as real) * 100.0
        && 0.0 <= rows[i].churnRate <= 100.0
  {
    var s := Observe(predictions);
    var order, groups := GroupCount(s);
    rows := Rows(order, groups);
    forall i | 0 <= i < |rows|
      ensures Total(s, rows[i].contract) >= 1
      ensures rows[i].churnRate == (Churns(s, rows[i].contract) as real / Total(s, rows[i].contract) as real) * 100.0
      ensures 0.0 <= rows[i].churnRate <= 100.0
    {
      var k := order[i];
      assert groups[k] == Tally(Churns(s, k), Total(s, k));
      TotalPositive(s, k);
      ChurnsAtMostTotal(s, k);
      RateBounds(Churns(s, k), Total(s, k));
    }
  }

  lemma {:induction false} AllKeyed(s: seq<Obs>)
    requires forall i :: 0 <= i < |s| ==> s[i].key.Some?
    ensures Valid(s) == |s|
  {
    if s != [] {
      AllKeyed(Init(s));
    }
  }

  /** Every prediction has a group: the contract totals add up to the number of
      predictions, each contract value is listed once, and an empty contract
      is listed as "Unknown". */
  lemma ContractTotals(predictions: seq<ChurnPrediction>)
    ensures var s := Observe(predictions);
      && SumTotals(s, Keys(s)) == |predictions|
      && Distinct(Keys(s))
      && (forall c :: c in Keys(s) <==> exists i :: 0 <= i < |predictions| && ContractKey(predictions[i].customerData.contract) == c)
      && "" !in Keys(s)
  {
    var s := Observe(predictions);
    AllKeyed(s);
    TotalsSumToValid(s);
    KeysExact(s);
  }
}
