/** The layout constants of the grouped bar chart (the `BarChartDefaults`
    object). Every dp value used by the chart is a whole number, so dp are
    modelled as `int`. */
module BarChartDefaults {

  /** Lowest value drawn at full strength; anything below it is faded. */
  const BarVisualMinThreshold: int := -30
  /** Upper visual bound of a bar. */
  const BarVisualMaxThreshold: int := 100

  const BarWidth: nat := 8
  const BarSpacing: nat := 1
  /** Height reserved for the group label above the bars. */
  const LabelHeight: nat := 40

  /** Kotlin's `abs` on an `Int` whose magnitude fits (no `Int.MIN_VALUE` here). */
  function Abs(x: int): (r: nat)
    ensures r == x || r == -x
    ensures x >= 0 ==> r == x
  {
    if x < 0 then -x else x
  }

  /** Height of the row that holds the bars: the positive range plus the negative one. */
  const GroupBarContainerHeight: int := BarVisualMaxThreshold + Abs(BarVisualMinThreshold)

  /** Height of a whole group column: the bar row plus the label. */
  const GroupBarAndLabelContainerHeight: int := GroupBarContainerHeight + LabelHeight

  /** The zero line: bars of value 0 stand this far above the floor of the bar row. */
  const ZeroLine: nat := Abs(BarVisualMinThreshold)

  lemma ContainerHeights()
    ensures ZeroLine == 30
    ensures GroupBarContainerHeight == 130
    ensures GroupBarContainerHeight == BarVisualMaxThreshold + ZeroLine
    ensures GroupBarAndLabelContainerHeight == 170
  {
  }
}
