/** The probability histogram (project/src/components/charts/ProbabilityHistogram.tsx):
    ten bins of width 10 percentage points, filled by one pass over the
    predictions that raises the count of each prediction's bin in place. */
module Histogram {
  import opened Common

  datatype Bin = Bin(bin: string, count: nat)

  const BinCount := 10

  /** The label of bin `i`: "0-10", "10-20", ..., "90-100". */
  function BinLabel(i: nat): string {
    NatText(i * 10) + "-" + NatText(i * 10 + 10)
  }

  lemma BinLabelEnds()
    ensures BinLabel(0) == "0-10" && BinLabel(9) == "90-100"
  {
    assert NatText(10) == "10" && NatText(90) == "90" && NatText(100) == "100";
  }

  /** `Math.min(Math.floor(p * 10), 9)`: the bin a probability falls in. A
      negative probability gives a negative index, which names no bin. */
  function BinIndex(p: real): (i: int)
    ensures 0.0 <= p ==> 0 <= i < BinCount
    ensures p < 0.0 ==> i < 0
    ensures 0.0 <= p < 1.0 ==> i == (p * 10.0).Floor
    ensures p >= 0.9 ==> i == 9
    ensures 0.0 <= p && i < 9 ==> i as real <= p * 10.0 < i as real + 1.0
  {
    var f := (p * 10.0).Floor;
    if f < 9 then f else 9
  }

  /** How many of `ps` fall in bin `i`. */
  function CountIn(ps: seq<real>, i: int): nat {
    if ps == [] then 0
    else CountIn(ps[..|ps| - 1], i) + (if BinIndex(ps[|ps| - 1]) == i then 1 else 0)
  }

  /** The bins the chart is drawn from. */
  method Bins(ps: seq<real>) returns (bins: array<Bin>)
    requires forall k :: 0 <= k < |ps| ==> 0.0 <= ps[k]
    ensures bins.Length == BinCount
    ensures forall i :: 0 <= i < BinCount ==> bins[i] == Bin(BinLabel(i), CountIn(ps, i))
  {
    bins := new Bin[BinCount](i => Bin(BinLabel(i), 0));
    var j := 0;
    while j < |ps|
      invariant 0 <= j <= |ps|
      invariant forall i :: 0 <= i < BinCount ==> bins[i] == Bin(BinLabel(i), CountIn(ps[..j], i))
    {
      assert ps[..j + 1][..j] == ps[..j];
      var index := BinIndex(ps[j]);
      bins[index] := bins[index].(count := bins[index].count + 1);
      j := j + 1;
    }
    assert ps[..|ps|] == ps;
  }

  /** The counts of bins 0 .. n-1 added up. */
  function CountBelow(ps: seq<real>, n: nat): nat {
    if n == 0 then 0 else CountBelow(ps, n - 1) + CountIn(ps, n - 1)
  }

  lemma {:induction false} CountBelowSnoc(ps: seq<real>, n: nat)
    requires ps != []
    ensures CountBelow(ps, n)
      == CountBelow(ps[..|ps| - 1], n) + (if 0 <= BinIndex(ps[|ps| - 1]) < n then 1 else 0)
  {
    if n > 0 {
      CountBelowSnoc(ps, n - 1);
    }
  }

  /** Every prediction is counted in exactly one bin: the counts add up to the
      number of predictions. */
  lemma {:induction false} CountsSumToLength(ps: seq<real>)
    requires forall k :: 0 <= k < |ps| ==> 0.0 <= ps[k]
    ensures CountBelow(ps, BinCount) == |ps|
  {
    if ps == [] {
      CountBelowNone(BinCount);
    } else {
      CountsSumToLength(ps[..|ps| - 1]);
      CountBelowSnoc(ps, BinCount);
    }
  }

  lemma {:induction false} CountBelowNone(n: nat)
    ensures CountBelow([], n) == 0
  {
    if n > 0 {
      CountBelowNone(n - 1);
    }
  }

  lemma {:induction false} CountInAppend(a: seq<real>, b: seq<real>, i: int)
    ensures CountIn(a + b, i) == CountIn(a, i) + CountIn(b, i)
  {
    if b == [] {
      assert a + b == a;
    } else {
      CountInAppend(a, b[..|b| - 1], i);
      assert (a + b)[..|a + b| - 1] == a + b[..|b| - 1];
    }
  }

  /** The counts do not depend on the order of the predictions. */
  lemma {:induction false} CountsIgnoreOrder(ps: seq<real>, qs: seq<real>, i: int)
    requires multiset(ps) == multiset(qs)
    ensures CountIn(ps, i) == CountIn(qs, i)
    decreases |ps|
  {
    if ps == [] {
      assert |qs| == |multiset(qs)| == 0;
    } else {
      var x := ps[|ps| - 1];
      var init := ps[..|ps| - 1];
      assert ps == init + [x];
      assert x in multiset(qs);
      var k :| 0 <= k < |qs| && qs[k] == x;
      var before, after := qs[..k], qs[k + 1..];
      assert qs == before + [x] + after;
      var rest := before + after;
      assert multiset(qs) == multiset(before) + multiset{x} + multiset(after);
      assert multiset(ps) == multiset(init) + multiset{x};
      assert multiset(rest) == multiset(before) + multiset(after);
      assert multiset(rest) == multiset(init) by {
        forall y ensures multiset(rest)[y] == multiset(init)[y] {
          assert multiset(qs)[y] == multiset(ps)[y];
        }
      }
      CountsIgnoreOrder(init, rest, i);
      CountInAppend(before, [x], i);
      CountInAppend(before + [x], after, i);
      CountInAppend(before, after, i);
      CountInAppend(init, [x], i);
      assert [x][..0] == [];
    }
  }
}
