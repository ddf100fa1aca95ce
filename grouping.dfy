/** Counting predictions per key in a JavaScript object, the way both the
    trend chart and the contract chart do: a key is added on its first
    occurrence (so the object's entries come in first-appearance order), and
    each occurrence raises the key's total, and its churn count when the
    prediction is a churn. Observations without a key are skipped. */
module Grouping {
  import opened Common

  /** One prediction as the grouping loop sees it. */
  datatype Obs = Obs(key: Option<string>, churn: bool)

  datatype Tally = Tally(churns: nat, total: nat)

  function Last<T>(s: seq<T>): T
    requires s != []
  {
    s[|s| - 1]
  }

  function Init<T>(s: seq<T>): seq<T>
    requires s != []
  {
    s[..|s| - 1]
  }

  /** The distinct keys of `s`, in order of first appearance. */
  function Keys(s: seq<Obs>): seq<string> {
    if s == [] then []
    else
      var prev := Keys(Init(s));
      if Last(s).key.Some? && Last(s).key.value !in prev then prev + [Last(s).key.value] else prev
  }

  /** How many observations carry key `k`. */
  function Total(s: seq<Obs>, k: string): nat {
    if s == [] then 0
    else Total(Init(s), k) + (if Last(s).key == Some(k) then 1 else 0)
  }

  /** How many observations carry key `k` and are churns. */
  function Churns(s: seq<Obs>, k: string): nat {
    if s == [] then 0
    else Churns(Init(s), k) + (if Last(s).key == Some(k) && Last(s).churn then 1 else 0)
  }

  /** How many observations carry a key at all. */
  function Valid(s: seq<Obs>): nat {
    if s == [] then 0
    else Valid(Init(s)) + (if Last(s).key.Some? then 1 else 0)
  }

  predicate Distinct(ks: seq<string>) {
    forall i, j :: 0 <= i < j < |ks| ==> ks[i] != ks[j]
  }

  /** The grouping loop: the object's keys in insertion order and its entries. */
  method GroupCount(s: seq<Obs>) returns (order: seq<string>, groups: map<string, Tally>)
    ensures order == Keys(s)
    ensures groups.Keys == set k | k in order
    ensures forall k :: k in groups ==> groups[k] == Tally(Churns(s, k), Total(s, k))
  {
    order := [];
    groups := map[];
    var i := 0;
    while i < |s|
      invariant 0 <= i <= |s|
      invariant order == Keys(s[..i])
      invariant groups.Keys == set k | k in order
      invariant forall k :: k in groups ==> groups[k] == Tally(Churns(s[..i], k), Total(s[..i], k))
    {
      var o := s[i];
      assert Init(s[..i + 1]) == s[..i];
      if o.key.Some? {
        var k := o.key.value;
        if k !in groups {
          TotalPositive(s[..i], k);
          ChurnsAtMostTotal(s[..i], k);
          groups := groups[k := Tally(0, 0)];
          order := order + [k];
        }
        var t := groups[k];
        groups := groups[k := Tally(t.churns + (if o.churn then 1 else 0), t.total + 1)];
      }
      i := i + 1;
    }
    assert s[..|s|] == s;
  }

  /** A key has a positive total exactly when it appears among the keys. */
  lemma {:induction false} TotalPositive(s: seq<Obs>, k: string)
    ensures Total(s, k) > 0 <==> k in Keys(s)
  {
    if s != [] {
      TotalPositive(Init(s), k);
    }
  }

  lemma {:induction false} ChurnsAtMostTotal(s: seq<Obs>, k: string)
    ensures Churns(s, k) <= Total(s, k)
  {
    if s != [] {
      ChurnsAtMostTotal(Init(s), k);
    }
  }

  /** A key is listed exactly when some observation carries it, and only once. */
  lemma {:induction false} KeysExact(s: seq<Obs>)
    ensures Distinct(Keys(s))
    ensures forall k :: k in Keys(s) <==> exists j :: 0 <= j < |s| && s[j].key == Some(k)
  {
    if s != [] {
      var p := Init(s);
      KeysExact(p);
      forall k ensures k in Keys(s) <==> exists j :: 0 <= j < |s| && s[j].key == Some(k) {
        if k in Keys(s) && k in Keys(p) {
          var j :| 0 <= j < |p| && p[j].key == Some(k);
          assert s[j] == p[j];
        }
        if exists j :: 0 <= j < |s| && s[j].key == Some(k) {
          var j :| 0 <= j < |s| && s[j].key == Some(k);
          if j < |p| {
            assert p[j] == s[j];
          }
        }
      }
    }
  }

  /** A group's churn share is a fraction. */
  lemma RateBounds(churns: nat, total: nat)
    requires 1 <= total && churns <= total
    ensures 0.0 <= churns as real / total as real <= 1.0
  {
  }

  /** The totals of the listed keys, in list order. */
  function SumTotals(s: seq<Obs>, ks: seq<string>): nat {
    if ks == [] then 0 else SumTotals(s, Init(ks)) + Total(s, Last(ks))
  }

  lemma {:induction false} SumTotalsSnoc(p: seq<Obs>, o: Obs, ks: seq<string>)
    requires Distinct(ks)
    ensures SumTotals(p + [o], ks) == SumTotals(p, ks) + (if o.key.Some? && o.key.value in ks then 1 else 0)
  {
    assert Init(p + [o]) == p;
    if ks != [] {
      var ks' := Init(ks);
      assert Distinct(ks');
      SumTotalsSnoc(p, o, ks');
      assert ks == ks' + [Last(ks)];
      assert Last(ks) !in ks';
    }
  }

  /** Every observation with a key is counted in exactly one group. */
  lemma {:induction false} TotalsSumToValid(s: seq<Obs>)
    ensures SumTotals(s, Keys(s)) == Valid(s)
  {
    if s != [] {
      var p := Init(s);
      var o := Last(s);
      assert s == p + [o];
      TotalsSumToValid(p);
      KeysExact(p);
      SumTotalsSnoc(p, o, Keys(p));
      if o.key.Some? && o.key.value !in Keys(p) {
        var k := o.key.value;
        TotalPositive(p, k);
        assert Init(Keys(s)) == Keys(p);
      }
    }
  }
}
