/** The attribution bar chart (project/src/components/prediction/ShapChart.tsx):
    magnitudes as bar lengths, largest first, coloured by the stated impact. */
module ShapChart {
  import opened Common
  import opened Domain
  import StableSort

  datatype Bar = Bar(feature: string, value: real, originalValue: real, impact: Impact)

  /** What the component renders: a message, or the bars in display order. */
  datatype Chart = NoValues | Bars(bars: seq<Bar>)

  datatype Color = Red | Green

  function ToBar(v: ShapValue): Bar {
    Bar(v.feature, Magnitude(v), v.value, v.impact)
  }

  function BarLength(b: Bar): real {
    b.value
  }

  function ToBars(vs: seq<ShapValue>): (r: seq<Bar>)
    ensures |r| == |vs|
    ensures forall k :: 0 <= k < |vs| ==> r[k] == ToBar(vs[k])
  {
    if vs == [] then [] else [ToBar(vs[0])] + ToBars(vs[1..])
  }

  /** The chart for a possibly missing list of attributions. */
  function ChartData(shapValues: Option<seq<ShapValue>>): Chart {
    if shapValues.None? || |shapValues.value| == 0 then NoValues
    else Bars(StableSort.Sort(BarLength, ToBars(shapValues.value)))
  }

  /** A missing or empty list renders only the message. */
  lemma EmptyRendersMessage(shapValues: Option<seq<ShapValue>>)
    ensures ChartData(shapValues) == NoValues <==> shapValues.None? || shapValues.value == []
  {
  }

  /** One bar per attribution, each carrying the magnitude as its length and
      the feature, sign and impact of its attribution unchanged. */
  lemma BarsFaithful(vs: seq<ShapValue>)
    requires vs != []
    ensures ChartData(Some(vs)).Bars?
    ensures |ChartData(Some(vs)).bars| == |vs|
    ensures multiset(ChartData(Some(vs)).bars) == multiset(ToBars(vs))
    ensures forall b :: b in ChartData(Some(vs)).bars ==>
      b.value >= 0.0
      && exists v :: v in vs && b.feature == v.feature && b.originalValue == v.value
                     && b.impact == v.impact && b.value == Magnitude(v)
  {
    var bars := ToBars(vs);
    StableSort.SortPermutation(BarLength, bars);
    forall b | b in ChartData(Some(vs)).bars
      ensures b.value >= 0.0
      ensures exists v :: v in vs && b.feature == v.feature && b.originalValue == v.value
                          && b.impact == v.impact && b.value == Magnitude(v)
    {
      assert b in multiset(bars);
      var k :| 0 <= k < |bars| && bars[k] == b;
      assert vs[k] in vs;
    }
  }

  /** Bars are ordered by non-increasing length. */
  lemma BarsSorted(vs: seq<ShapValue>)
    requires vs != []
    ensures StableSort.SortedDesc(BarLength, ChartData(Some(vs)).bars)
  {
    StableSort.SortIsSorted(BarLength, ToBars(vs));
  }

  lemma {:induction false} ToBarsSorted(vs: seq<ShapValue>)
    requires StableSort.SortedDesc(Magnitude, vs)
    ensures StableSort.SortedDesc(BarLength, ToBars(vs))
  {
  }

  /** Attributions already in the scorer's order are drawn in that same order:
      both sorts are stable on the same key. */
  lemma ScorerOrderKept(vs: seq<ShapValue>)
    requires vs != []
    requires StableSort.SortedDesc(Magnitude, vs)
    ensures ChartData(Some(vs)).bars == ToBars(vs)
  {
    ToBarsSorted(vs);
    StableSort.SortSorted(BarLength, ToBars(vs));
  }

  /** `entry.impact === 'positive' ? '#EF4444' : '#10B981'` */
  function BarColor(b: Bar): (c: Color)
    ensures c == Red <==> b.impact == Positive
  {
    if b.impact == Positive then Red else Green
  }

  /** The colour ignores the sign: a negative attribution labelled positive is
      drawn red. */
  lemma ColorIgnoresSign(b: Bar)
    requires b.originalValue < 0.0 && b.impact == Positive
    ensures BarColor(b) == Red
  {
  }
}
