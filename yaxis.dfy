/**
 * The revenue chart's y-axis: the top of the axis is the highest monthly
 * revenue rounded up to a multiple of 1000, and the axis carries one label
 * per thousand, from the top down to zero, written "k K €".
 */
module YAxis {
  import opened Wrappers
  import Decimal

  /** One month of the revenue series, as fetched for the chart. */
  datatype Revenue = Revenue(month: string, revenue: int)

  const Suffix: string := " K €"

  /** The label of the tick at k thousand euro. */
  function LabelText(k: nat): string {
    Decimal.FromNat(k) + Suffix
  }

  /** Reads a tick label back to its number of thousands; None if it is not a label. */
  function LabelValue(s: string): Option<nat> {
    if |s| > |Suffix| && s[|s| - |Suffix|..] == Suffix && Decimal.AllDigits(s[..|s| - |Suffix|])
    then Some(Decimal.ToNat(s[..|s| - |Suffix|]))
    else None
  }

  /** Every label reads back as the number it was made from. */
  lemma LabelRoundTrip(k: nat)
    ensures LabelValue(LabelText(k)) == Some(k)
  {
    var s := LabelText(k);
    assert s[..|s| - |Suffix|] == Decimal.FromNat(k);
    assert s[|s| - |Suffix|..] == Suffix;
    Decimal.RoundTrip(k);
  }

  /** Math.max over the revenue values of a non-empty series. */
  function HighestRecord(revenue: seq<Revenue>): (m: int)
    requires |revenue| > 0
    ensures exists k :: 0 <= k < |revenue| && revenue[k].revenue == m
    ensures forall k :: 0 <= k < |revenue| ==> revenue[k].revenue <= m
  {
    if |revenue| == 1 then revenue[0].revenue
    else
      var rest := HighestRecord(revenue[1..]);
      if revenue[0].revenue >= rest then revenue[0].revenue else rest
  }

  /** Math.ceil(highest / 1000) * 1000 on integers: Dafny's `/` floors for a positive divisor. */
  function TopLabel(highest: int): (top: int)
    ensures top % 1000 == 0
    ensures highest <= top < highest + 1000
  {
    var q := (highest + 999) / 1000;
    assert (q * 1000) % 1000 == 0;
    q * 1000
  }

  /** No smaller multiple of 1000 covers the highest record. */
  lemma TopLabelIsLeast(highest: int, t: int)
    requires t % 1000 == 0 && highest <= t
    ensures TopLabel(highest) <= t
  {
  }

  /**
   * generateYAxis: walks i from topLabel down to 0 in steps of 1000 and
   * appends the label of i / 1000.  The series is left as it was; only the
   * labels and topLabel are returned.
   */
  method GenerateYAxis(revenue: seq<Revenue>) returns (yAxisLabels: seq<string>, topLabel: int)
    requires |revenue| > 0
    ensures topLabel % 1000 == 0
    ensures forall k :: 0 <= k < |revenue| ==> revenue[k].revenue <= topLabel
    ensures exists k :: 0 <= k < |revenue| && topLabel < revenue[k].revenue + 1000
    ensures |yAxisLabels| == if topLabel < 0 then 0 else topLabel / 1000 + 1
    ensures forall j :: 0 <= j < |yAxisLabels| ==> yAxisLabels[j] == LabelText(topLabel / 1000 - j)
    ensures forall j :: 0 <= j < |yAxisLabels| ==> LabelValue(yAxisLabels[j]) == Some(topLabel / 1000 - j)
    ensures topLabel >= 0 ==> yAxisLabels[|yAxisLabels| - 1] == "0 K €"
  {
    yAxisLabels := [];
    var highestRecord := HighestRecord(revenue);
    topLabel := TopLabel(highestRecord);
    ghost var top := topLabel / 1000;
    var i := topLabel;
    while i >= 0
      invariant i == 1000 * (top - |yAxisLabels|)
      invariant top >= 0 ==> |yAxisLabels| <= top + 1
      invariant top < 0 ==> yAxisLabels == []
      invariant forall j :: 0 <= j < |yAxisLabels| ==> yAxisLabels[j] == LabelText(top - j)
      decreases i
    {
      yAxisLabels := yAxisLabels + [LabelText(i / 1000)];
      i := i - 1000;
    }
    forall j | 0 <= j < |yAxisLabels|
      ensures LabelValue(yAxisLabels[j]) == Some(topLabel / 1000 - j)
    {
      LabelRoundTrip(topLabel / 1000 - j);
    }
  }
}
