# Grouped bar chart: layout and selection model

This project models the core of a grouped bar chart widget. The chart shows a
row of labelled groups. Each group holds one bar per signed integer value.

The model covers two parts.

- **Per-bar layout.** Each raw value gets a fade decision (is it below the
  lower threshold -30?). It also gets a displayed percentage, which is the
  value coerced into [-29, 99]. The drawn height is the percentage's
  magnitude. A bottom spacer (`yOffset`) puts bars on a zero line 30 dp
  above the floor of a 130 dp bar row: positive bars stand on the line,
  negative bars hang from it. The bars of a group are emitted left to right,
  with a 1 dp spacer between each pair of neighbours.
- **Selection.** The chart keeps one mutable index, starting at -1
  (nothing selected). A pointer DOWN on group *i* selects *i*. UP or CANCEL
  clears the selection. Each change is reported to the
  `onGroupSelectionChanged` callback, and every pointer event is consumed.
  A group's label is highlighted when the group is selected. Its bars are
  highlighted when it is selected or when nothing is selected.

Modules:

- `BarChartDefaults` (`defaults.dfy`): the thresholds, the dp constants and
  the derived container heights.
- `BarLayout` (`bar_layout.dfy`): pure functions and lemmas for one bar:
  `coerceIn`, the clamp and fade decision, the `yOffset` chain and the height.
- `ChartBarGroup` (`bar_group.dfy`): the loop that emits a group's bar row.
  It is a method proved against a prefix function. The group's column
  (label, highlight flags, row) is built here too.
- `Chart` (`bar_graph.dfy`): the class `BarGraph`. It holds
  `selectedGroupIndex` and the trace of reported values. It has the
  callbacks, the pointer handler, and the render loop over the groups, which
  is proved against a prefix function. The highlight lemmas are here.

Every dp value in the source is a whole number, so dp values are `int`. A
colour is an uninterpreted `nat`. The brush is reduced to the choice the fade
flag makes: solid, or fading to transparent.

## Model

| member | source | states |
|---|---|---|
| BarChartDefaults.Abs | app/src/main/java/com/andreivanceadev/groupedbargraph/BarGraph.kt:93 | the result is the argument or its negation, is never negative, and equals a non-negative argument |
| BarChartDefaults.ContainerHeights | app/src/main/java/com/andreivanceadev/groupedbargraph/BarGraph.kt:85-96 | the zero line is 30, the bar container is 100 + abs(-30) = 130, and with the label it is 170 |
| BarLayout.CoerceIn | app/src/main/java/com/andreivanceadev/groupedbargraph/BarGraph.kt:183 | for lo <= hi (Kotlin throws otherwise): the result lies in [lo, hi], keeps a value already inside, and maps values below or above to lo or hi |
| BarLayout.Clamp | app/src/main/java/com/andreivanceadev/groupedbargraph/BarGraph.kt:183 | the percentage lies strictly between the thresholds, equals the raw value when that is strictly inside them, and is min + 1 or max - 1 otherwise |
| BarLayout.LayoutBar | app/src/main/java/com/andreivanceadev/groupedbargraph/BarGraph.kt:180-191 | fade holds iff raw < -30; the height is the magnitude of the clamped percentage; a non-negative bar's offset is the zero line; a negative bar's offset is in [1, 29] and offset + height is the zero line; height + offset never exceeds the 130 container |
| BarLayout.ClampBounds | app/src/main/java/com/andreivanceadev/groupedbargraph/BarGraph.kt:183 | the percentage is always in [-29, 99], and equals the raw value exactly when the raw value is in [-29, 99] |
| BarLayout.FadingCases | app/src/main/java/com/andreivanceadev/groupedbargraph/BarGraph.kt:182-183 | fading iff raw < -30; -30 is clamped to -29 but not faded; 100 and above are clamped to 99 and not faded; a faded bar is always shown at -29 |
| BarLayout.FallbackUnreachable | app/src/main/java/com/andreivanceadev/groupedbargraph/BarGraph.kt:185-191 | the final `else` (offset 0) of the offset chain is never taken for a clamped percentage |
| BarLayout.FallbackReachableUnclamped | app/src/main/java/com/andreivanceadev/groupedbargraph/BarGraph.kt:187-191 | without the clamp, -31 would take the final `else` and get offset 0, so the clamp is what rules it out |
| BarLayout.MockedValues | app/src/main/java/com/andreivanceadev/groupedbargraph/BarGraph.kt:48-83 | values from the demo data laid out: -95 and -50 fade and show as -29 with offset 1; 99 stays 99 on the zero line; -15 has offset 15 |
| ChartBarGroup.BarFor | app/src/main/java/com/andreivanceadev/groupedbargraph/BarGraph.kt:196-204 | a bar item carries the value's layout, its colour, the given highlight and the width `BarWidth`; its brush fades out iff the value is below -30 |
| ChartBarGroup.EmitBars | app/src/main/java/com/andreivanceadev/groupedbargraph/BarGraph.kt:179-210 | the loop over a group's values produces exactly the bar row `BarRow` |
| ChartBarGroup.EmittedShape | app/src/main/java/com/andreivanceadev/groupedbargraph/BarGraph.kt:179-210 | after k iterations the row alternates bar (of value i/2) and spacer, and has length 2k, or 2k - 1 once the last value is done |
| ChartBarGroup.BarRowShape | app/src/main/java/com/andreivanceadev/groupedbargraph/BarGraph.kt:207-209 | a row of n >= 1 values has 2n - 1 items: the bars in value order at even positions, one spacer between each pair of adjacent bars |
| ChartBarGroup.AlternatingSpacers | app/src/main/java/com/andreivanceadev/groupedbargraph/BarGraph.kt:207-209 | a row of 2n + 1 items with spacers at exactly the odd positions holds exactly n spacers |
| ChartBarGroup.SpacerCount | app/src/main/java/com/andreivanceadev/groupedbargraph/BarGraph.kt:179-209 | a group of n >= 1 values emits n bars and exactly n - 1 spacers; an empty group emits nothing |
| ChartBarGroup.BarRowHighlight | app/src/main/java/com/andreivanceadev/groupedbargraph/BarGraph.kt:203 | every bar of a row carries the highlight decision the row was built with |
| ChartBarGroup.ColumnLayout | app/src/main/java/com/andreivanceadev/groupedbargraph/BarGraph.kt:176-210 | in a group's column every bar is highlighted iff the group is selected or nothing is, and is `BarWidth` (8) wide; n >= 1 values give 2n - 1 items with exactly n - 1 gaps of `BarSpacing` (1); no values give an empty row |
| ChartBarGroup.RenderGroup | app/src/main/java/com/andreivanceadev/groupedbargraph/BarGraph.kt:141-213 | rendering a group with the loop gives exactly its `Column` |
| Chart.ChartEmittedShape | app/src/main/java/com/andreivanceadev/groupedbargraph/BarGraph.kt:118-137 | after k >= 1 iterations over the groups the row is spacer, group 0, spacer, ..., group k - 1, spacer (2k + 1 items); before any it is empty |
| Chart.ChartRowShape | app/src/main/java/com/andreivanceadev/groupedbargraph/BarGraph.kt:118-137 | n >= 1 groups give n + 1 weight spacers with the groups in order between them; no groups give an empty row, with not even the leading spacer |
| Chart.HighlightRules | app/src/main/java/com/andreivanceadev/groupedbargraph/BarGraph.kt:122-134 | each group in the row shows its own label, highlights it iff it is the selected index, and builds its bars highlighted iff selected or none selected; at most one label is highlighted, and one is iff the selection names a group |
| Chart.BarHighlight | app/src/main/java/com/andreivanceadev/groupedbargraph/BarGraph.kt:203 | a bar anywhere in the chart is highlighted iff its group is selected or nothing is selected |
| Chart.BarGraph.constructor | app/src/main/java/com/andreivanceadev/groupedbargraph/BarGraph.kt:107-109 | the remembered index starts at -1 (nothing selected) and nothing has been reported |
| Chart.BarGraph.SelectedGroups | app/src/main/java/com/andreivanceadev/groupedbargraph/BarGraph.kt:133-134 | the groups with `isSelected` set: at most one, exactly those whose index equals the selection, and none iff nothing is selected |
| Chart.BarGraph.OnGroupSelected | app/src/main/java/com/andreivanceadev/groupedbargraph/BarGraph.kt:125-128 | sets the selection to the group's index and reports that index; the state stays valid |
| Chart.BarGraph.OnRemoveSelection | app/src/main/java/com/andreivanceadev/groupedbargraph/BarGraph.kt:129-132 | sets the selection to -1 and reports -1; the state stays valid |
| Chart.BarGraph.OnEvent | app/src/main/java/com/andreivanceadev/groupedbargraph/BarGraph.kt:155-168 | DOWN selects and reports the group; UP and CANCEL clear and report -1; other actions change and report nothing; the event is always consumed; the selection stays the last value reported |
| Chart.BarGraph.Render | app/src/main/java/com/andreivanceadev/groupedbargraph/BarGraph.kt:111-138 | the render loop over the groups produces exactly `ChartRow` under the current selection |
| Chart.PressAndRelease | app/src/main/java/com/andreivanceadev/groupedbargraph/BarGraph.kt:155-168 | a fresh chart with DOWN then UP on a group has exactly that group selected while down and none afterwards, with both values reported |

## Left out

- Compose layout: `Row`, `Column`, `Box`, modifier chains, weights, padding, alignment and clipping are not modelled. The model keeps the order of the emitted items, the container heights, each bar's height and bottom offset, and the widths of bars (`BarWidth`) and of the gaps between them (`BarSpacing`). The corner radius of the clipping is not modelled.
- Brushes, gradients, colours and alpha values are floating-point presentation. The model keeps only the fade and highlight decisions that choose them. A colour is an uninterpreted number.
- `GroupLabel` text styling and theme colours are left out; only its highlight flag is modelled.
- `MotionEvent` and `pointerInteropFilter` are reduced to an action enum with four cases: DOWN, UP, CANCEL and everything else.
- The `onGroupSelectionChanged` callback is caller code. It is modelled as a recorded trace of the values passed to it.
- Chart.BarGraph.SelectedGroups: the group list is fixed for the chart's lifetime (`barGroups` is a constant), so `Valid()` keeps the index below the group count. In the source the remembered index is not keyed on the list. If a caller renders a shorter list while a group is held, the index can name no group: then no label is highlighted, nothing counts as "nothing selected", and every bar is dimmed. `Chart.HighlightRules` covers any integer selection, so it describes that rendering, but the class does not model a change of the list.
- Recomposition is not modelled. In the source, a state change triggers a new render pass. In the model, `Render` is a separate call that reads the current selection.
- Kotlin `Int` is 32-bit, and the model uses unbounded integers. This is exact here: a raw value is only compared and coerced, and `abs` is only applied to clamped values and constants, so nothing can overflow.
- `MainActivity.kt` and the `@Preview` function: application bootstrap and preview scaffolding with no logic. The demo data set appears only as the concrete inputs of `BarLayout.MockedValues`.
