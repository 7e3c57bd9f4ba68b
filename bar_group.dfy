/** One group of the chart (`ChartBarGroup`): a label above a row of bars,
    the bars separated by fixed-width spacers. */
module ChartBarGroup {
  import opened BarChartDefaults
  import opened BarLayout

  /** A packed colour value; its channels are not modelled. */
  type Color = nat

  /** A labelled cluster of bars: one (value, colour) pair per bar. */
  datatype BarGroup = BarGroup(labelText: string, values: seq<(int, Color)>)

  /** The brush a bar is painted with: solid, or fading out to transparent. */
  datatype Brush = Solid(color: Color) | FadeOut(color: Color)

  /** What the bar row holds, left to right: bars and the spacers between
      them, each with its width. */
  datatype RowItem = BarItem(bar: Bar, brush: Brush, highlighted: bool, width: nat) | Spacer(width: nat)

  /** The spacer placed between two adjacent bars. */
  const BarGap: RowItem := Spacer(BarSpacing)

  /** One group's column: its fixed height, the label and whether it is
      highlighted, the fixed height of the bar row, and the bar row. */
  datatype GroupColumn = GroupColumn(
    height: int,
    labelText: string,
    labelHighlighted: bool,
    rowHeight: int,
    row: seq<RowItem>)

  /** The bar drawn for one (value, colour) pair. */
  function BarFor(value: (int, Color), highlighted: bool): (it: RowItem)
    ensures it.BarItem? && it.bar == LayoutBar(value.0) && it.highlighted == highlighted
    ensures it.width == BarWidth
    ensures it.brush.color == value.1
    ensures it.brush.FadeOut? <==> value.0 < BarVisualMinThreshold
  {
    var b := LayoutBar(value.0);
    BarItem(b, if b.faded then FadeOut(value.1) else Solid(value.1), highlighted, BarWidth)
  }

  /** What iteration `k` of the loop over the values emits: the bar, then a
      spacer unless `k` is the last index. */
  function Step(values: seq<(int, Color)>, highlighted: bool, k: nat): seq<RowItem>
    requires k < |values|
  {
    [BarFor(values[k], highlighted)] + if k < |values| - 1 then [BarGap] else []
  }

  /** What the first `k` iterations of the loop have emitted. */
  function Emitted(values: seq<(int, Color)>, highlighted: bool, k: nat): seq<RowItem>
    requires k <= |values|
  {
    if k == 0 then [] else Emitted(values, highlighted, k - 1) + Step(values, highlighted, k - 1)
  }

  /** The whole bar row of a group. */
  function BarRow(values: seq<(int, Color)>, highlighted: bool): seq<RowItem>
  {
    Emitted(values, highlighted, |values|)
  }

  /** The loop over the values, emitting the row item by item. */
  method EmitBars(values: seq<(int, Color)>, highlighted: bool) returns (row: seq<RowItem>)
    ensures row == BarRow(values, highlighted)
  {
    row := [];
    var index := 0;
    while index < |values|
      invariant 0 <= index <= |values|
      invariant row == Emitted(values, highlighted, index)
    {
      row := row + [BarFor(values[index], highlighted)];
      if index < |values| - 1 {
        row := row + [BarGap];
      }
      index := index + 1;
    }
  }

  /** The prefix emitted after `k` iterations alternates bar, spacer, bar, ...,
      with a spacer after each bar except after the last value. */
  lemma {:induction false} EmittedShape(values: seq<(int, Color)>, highlighted: bool, k: nat)
    requires k <= |values|
    ensures |Emitted(values, highlighted, k)| == if k == 0 then 0 else if k == |values| then 2 * k - 1 else 2 * k
    ensures forall i :: 0 <= i < |Emitted(values, highlighted, k)| ==>
      Emitted(values, highlighted, k)[i] == if i % 2 == 0 then BarFor(values[i / 2], highlighted) else BarGap
  {
    if k > 0 {
      EmittedShape(values, highlighted, k - 1);
      var prev := Emitted(values, highlighted, k - 1);
      var e := Emitted(values, highlighted, k);
      assert e == prev + Step(values, highlighted, k - 1);
      assert |prev| == 2 * (k - 1);
      forall i | 0 <= i < |e|
        ensures e[i] == if i % 2 == 0 then BarFor(values[i / 2], highlighted) else BarGap
      {
        if i >= |prev| {
          assert i == 2 * (k - 1) || i == 2 * (k - 1) + 1;
        }
      }
    }
  }

  /** The bar row of a non-empty group: bars at the even positions, in value
      order, and exactly one spacer between each pair of adjacent bars. */
  lemma BarRowShape(values: seq<(int, Color)>, highlighted: bool)
    requires |values| >= 1
    ensures |BarRow(values, highlighted)| == 2 * |values| - 1
    ensures forall i :: 0 <= i < |BarRow(values, highlighted)| ==>
      BarRow(values, highlighted)[i] == if i % 2 == 0 then BarFor(values[i / 2], highlighted) else BarGap
  {
    EmittedShape(values, highlighted, |values|);
  }

  /** A row of 2n + 1 items whose spacers stand exactly at the odd positions
      holds exactly n spacers. */
  lemma {:induction false} AlternatingSpacers(s: seq<RowItem>, n: nat)
    requires |s| == 2 * n + 1
    requires forall i :: 0 <= i < |s| ==> (s[i] == BarGap <==> i % 2 == 1)
    ensures multiset(s)[BarGap] == n
  {
    if n == 0 {
      assert s == [s[0]];
    } else {
      var t := s[..2 * n - 1];
      assert s == t + [s[2 * n - 1], s[2 * n]];
      assert multiset(s) == multiset(t) + multiset([s[2 * n - 1], s[2 * n]]);
      forall i | 0 <= i < |t| ensures (t[i] == BarGap <==> i % 2 == 1) {
        assert t[i] == s[i];
      }
      AlternatingSpacers(t, n - 1);
    }
  }

  /** A group of n >= 1 bars emits n bars and exactly n - 1 spacers; an empty group emits nothing. */
  lemma SpacerCount(values: seq<(int, Color)>, highlighted: bool)
    ensures |values| >= 1 ==> multiset(BarRow(values, highlighted))[BarGap] == |values| - 1
    ensures |BarRow(values, highlighted)| - multiset(BarRow(values, highlighted))[BarGap] == |values|
    ensures |values| == 0 ==> BarRow(values, highlighted) == []
  {
    EmittedShape(values, highlighted, |values|);
    if |values| >= 1 {
      var row := BarRow(values, highlighted);
      forall i | 0 <= i < |row| ensures (row[i] == BarGap <==> i % 2 == 1) {
        if i % 2 == 0 {
          assert row[i].BarItem?;
        }
      }
      AlternatingSpacers(row, |values| - 1);
    }
  }

  /** Every bar of a row carries the row's highlight decision. */
  lemma BarRowHighlight(values: seq<(int, Color)>, highlighted: bool)
    ensures forall i :: 0 <= i < |BarRow(values, highlighted)| && BarRow(values, highlighted)[i].BarItem? ==>
      BarRow(values, highlighted)[i].highlighted == highlighted
  {
    if |values| >= 1 {
      BarRowShape(values, highlighted);
    }
  }

  /** The column for a group, given the selection flags computed by the chart. */
  function Column(group: BarGroup, isSelected: bool, isNothingSelected: bool): GroupColumn
  {
    GroupColumn(GroupBarAndLabelContainerHeight, group.labelText, isSelected, GroupBarContainerHeight,
                BarRow(group.values, isSelected || isNothingSelected))
  }

  /** A group's column: its bars are highlighted iff the group is selected or
      nothing is, and a group of n >= 1 values shows n bars of width
      `BarWidth` with exactly n - 1 gaps of width `BarSpacing` between them. */
  lemma ColumnLayout(group: BarGroup, isSelected: bool, isNothingSelected: bool)
    ensures var c := Column(group, isSelected, isNothingSelected);
      forall i :: 0 <= i < |c.row| && c.row[i].BarItem? ==>
        (c.row[i].highlighted <==> isSelected || isNothingSelected) && c.row[i].width == BarWidth
    ensures var c := Column(group, isSelected, isNothingSelected);
      |group.values| >= 1 ==> |c.row| == 2 * |group.values| - 1 && multiset(c.row)[BarGap] == |group.values| - 1
    ensures |group.values| == 0 ==> Column(group, isSelected, isNothingSelected).row == []
  {
    var highlighted := isSelected || isNothingSelected;
    SpacerCount(group.values, highlighted);
    if |group.values| >= 1 {
      BarRowShape(group.values, highlighted);
    }
  }

  /** Renders one group, running the loop over its values. */
  method RenderGroup(group: BarGroup, isSelected: bool, isNothingSelected: bool) returns (c: GroupColumn)
    ensures c == Column(group, isSelected, isNothingSelected)
  {
    var row := EmitBars(group.values, isSelected || isNothingSelected);
    c := GroupColumn(GroupBarAndLabelContainerHeight, group.labelText, isSelected, GroupBarContainerHeight, row);
  }
}
