/** The per-bar arithmetic of `ChartBarGroup`: a raw signed value becomes a
    fade decision, a clamped percentage, a drawn height and the spacer that
    lifts the bar off the floor of the bar row. */
module BarLayout {
  import opened BarChartDefaults

  /** Kotlin's `coerceIn`, which throws unless `lo <= hi`. */
  function CoerceIn(x: int, lo: int, hi: int): (r: int)
    requires lo <= hi
    ensures lo <= r <= hi
    ensures lo <= x <= hi ==> r == x
    ensures x < lo ==> r == lo
    ensures x > hi ==> r == hi
  {
    if x < lo then lo else if x > hi then hi else x
  }

  /** The fade decision: the raw value lies below the lower visual threshold. */
  predicate IsFaded(raw: int)
  {
    raw < BarVisualMinThreshold
  }

  /** The displayed percentage: the raw value kept strictly inside the threshold range. */
  function Clamp(raw: int): (p: int)
    ensures BarVisualMinThreshold < p < BarVisualMaxThreshold
    ensures BarVisualMinThreshold < raw < BarVisualMaxThreshold ==> p == raw
    ensures raw <= BarVisualMinThreshold ==> p == BarVisualMinThreshold + 1
    ensures raw >= BarVisualMaxThreshold ==> p == BarVisualMaxThreshold - 1
  {
    CoerceIn(raw, BarVisualMinThreshold + 1, BarVisualMaxThreshold - 1)
  }

  /** Which arm of the `yOffset` if / else-if / else chain a percentage takes. */
  datatype OffsetBranch = AboveZero | BelowZero | Fallback

  function BranchOf(percentage: int): OffsetBranch
  {
    if percentage >= 0 then AboveZero
    else if BarVisualMinThreshold <= percentage <= -1 then BelowZero
    else Fallback
  }

  /** The `yOffset` chain as written, for any percentage. */
  function YOffset(percentage: int): int
  {
    match BranchOf(percentage)
    case AboveZero => Abs(BarVisualMinThreshold)
    case BelowZero => Abs(BarVisualMinThreshold) + percentage
    case Fallback => 0
  }

  /** Everything the chart derives from one raw value. */
  datatype Bar = Bar(faded: bool, percentage: int, height: nat, yOffset: int)

  /** The computation for one bar: a positive bar stands on the zero line,
      a negative one hangs from it, and the bar and its spacer fit the row. */
  function LayoutBar(raw: int): (b: Bar)
    ensures b.faded <==> raw < BarVisualMinThreshold
    ensures b.percentage == Clamp(raw)
    ensures b.height == Abs(b.percentage)
    ensures b.percentage >= 0 ==> b.yOffset == ZeroLine
    ensures b.percentage < 0 ==> 1 <= b.yOffset <= ZeroLine - 1 && b.yOffset + b.height == ZeroLine
    ensures 0 <= b.yOffset && b.height + b.yOffset <= GroupBarContainerHeight
  {
    var p := Clamp(raw);
    Bar(IsFaded(raw), p, Abs(p), YOffset(p))
  }

  /** Clamping keeps every percentage in [min + 1, max - 1] and leaves a value
      already inside that range alone. */
  lemma ClampBounds(raw: int)
    ensures -29 <= Clamp(raw) <= 99
    ensures -29 <= raw <= 99 <==> Clamp(raw) == raw
  {
  }

  /** Fading happens exactly below -30; -30 itself is clamped but not faded;
      values of 100 and more are clamped to 99 and never faded. */
  lemma FadingCases(raw: int)
    ensures LayoutBar(raw).faded <==> raw < -30
    ensures raw == -30 ==> !LayoutBar(raw).faded && LayoutBar(raw).percentage == -29
    ensures raw >= 100 ==> !LayoutBar(raw).faded && LayoutBar(raw).percentage == 99
    ensures LayoutBar(raw).faded ==> LayoutBar(raw).percentage == -29
  {
  }

  /** The final `else` of the `yOffset` chain is never taken for a clamped percentage. */
  lemma FallbackUnreachable(raw: int)
    ensures BranchOf(LayoutBar(raw).percentage) != Fallback
  {
  }

  /** Without the clamp the final `else` would be taken: the chain alone does not exclude it. */
  lemma FallbackReachableUnclamped()
    ensures BranchOf(BarVisualMinThreshold - 1) == Fallback
    ensures YOffset(BarVisualMinThreshold - 1) == 0
  {
  }

  /** The values of the demo data set, laid out. */
  lemma MockedValues()
    ensures LayoutBar(67) == Bar(false, 67, 67, 30)
    ensures LayoutBar(-15) == Bar(false, -15, 15, 15)
    ensures LayoutBar(-95) == Bar(true, -29, 29, 1)
    ensures LayoutBar(-50) == Bar(true, -29, 29, 1)
    ensures LayoutBar(99) == Bar(false, 99, 99, 30)
    ensures LayoutBar(4) == Bar(false, 4, 4, 30)
  {
  }
}
