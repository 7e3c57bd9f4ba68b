/** The chart (`BarGraph`): a row of group columns separated by flexible
    spacers, and the one piece of mutable state, the index of the group the
    pointer is held down on. */
module Chart {
  import opened BarChartDefaults
  import opened ChartBarGroup

  /** The pointer actions a group column tells apart; every other action is `Other`. */
  datatype Action = Down | Up | Cancel | Other

  /** The selected index meaning that no group is selected. */
  const NoSelection: int := -1

  /** What the chart's row holds: flexible (weight 1) spacers and group columns. */
  datatype ChartItem = WeightSpacer | Group(index: nat, column: GroupColumn)

  /** Group `index` is the selected one (its `isSelected` flag). */
  predicate IsSelected(selected: int, index: int)
  {
    selected == index
  }

  /** No group is selected (the `isNothingSelected` flag). */
  predicate IsNothingSelected(selected: int)
  {
    selected == NoSelection
  }

  /** The column of group `k` under the given selection. */
  function GroupAt(groups: seq<BarGroup>, selected: int, k: nat): ChartItem
    requires k < |groups|
  {
    Group(k, Column(groups[k], IsSelected(selected, k), IsNothingSelected(selected)))
  }

  /** What iteration `k` of the loop over the groups emits: a leading spacer
      on the first iteration only, then the group, then a spacer. */
  function GroupStep(groups: seq<BarGroup>, selected: int, k: nat): seq<ChartItem>
    requires k < |groups|
  {
    (if k == 0 then [WeightSpacer] else []) + [GroupAt(groups, selected, k), WeightSpacer]
  }

  /** What the first `k` iterations of the loop over the groups have emitted. */
  function ChartEmitted(groups: seq<BarGroup>, selected: int, k: nat): seq<ChartItem>
    requires k <= |groups|
  {
    if k == 0 then [] else ChartEmitted(groups, selected, k - 1) + GroupStep(groups, selected, k - 1)
  }

  /** The chart's whole row under the given selection. */
  function ChartRow(groups: seq<BarGroup>, selected: int): seq<ChartItem>
  {
    ChartEmitted(groups, selected, |groups|)
  }

  /** After `k >= 1` iterations the row is spacer, group 0, spacer, group 1, ...,
      group k - 1, spacer; before the first iteration it is empty. */
  lemma {:induction false} ChartEmittedShape(groups: seq<BarGroup>, selected: int, k: nat)
    requires k <= |groups|
    ensures |ChartEmitted(groups, selected, k)| == if k == 0 then 0 else 2 * k + 1
    ensures forall i :: 0 <= i < |ChartEmitted(groups, selected, k)| ==>
      ChartEmitted(groups, selected, k)[i] == if i % 2 == 0 then WeightSpacer else GroupAt(groups, selected, i / 2)
  {
    if k > 0 {
      ChartEmittedShape(groups, selected, k - 1);
      var prev := ChartEmitted(groups, selected, k - 1);
      var e := ChartEmitted(groups, selected, k);
      assert e == prev + GroupStep(groups, selected, k - 1);
      forall i | 0 <= i < |e|
        ensures e[i] == if i % 2 == 0 then WeightSpacer else GroupAt(groups, selected, i / 2)
      {
        if i >= |prev| {
          if k == 1 {
            assert i == 0 || i == 1 || i == 2;
          } else {
            assert i == 2 * k - 1 || i == 2 * k;
          }
        }
      }
    }
  }

  /** The chart row of n >= 1 groups holds the groups in order at the odd
      positions and n + 1 spacers around them; no groups, no row at all. */
  lemma ChartRowShape(groups: seq<BarGroup>, selected: int)
    ensures |groups| == 0 ==> ChartRow(groups, selected) == []
    ensures |groups| >= 1 ==> |ChartRow(groups, selected)| == 2 * |groups| + 1
    ensures forall i :: 0 <= i < |ChartRow(groups, selected)| ==>
      ChartRow(groups, selected)[i] == if i % 2 == 0 then WeightSpacer else GroupAt(groups, selected, i / 2)
  {
    ChartEmittedShape(groups, selected, |groups|);
  }

  /** Position `i` of a chart row holds a group whose label is highlighted. */
  predicate LabelHighlightedAt(row: seq<ChartItem>, i: int)
  {
    0 <= i < |row| && row[i].Group? && row[i].column.labelHighlighted
  }

  /** Under any selection: a group's label is highlighted iff it is the
      selected group, its bars iff it is selected or nothing is, and at most
      one group has its label highlighted, none exactly when the selected
      index names no group. */
  lemma HighlightRules(groups: seq<BarGroup>, selected: int)
    ensures forall i :: 0 <= i < |ChartRow(groups, selected)| && ChartRow(groups, selected)[i].Group? ==>
      var g := ChartRow(groups, selected)[i];
      g.index < |groups| &&
      g.column.labelText == groups[g.index].labelText &&
      (g.column.labelHighlighted <==> IsSelected(selected, g.index)) &&
      g.column.row == BarRow(groups[g.index].values, IsSelected(selected, g.index) || IsNothingSelected(selected))
    ensures forall i, j ::
      (LabelHighlightedAt(ChartRow(groups, selected), i) && LabelHighlightedAt(ChartRow(groups, selected), j)) ==> i == j
    ensures (exists i :: LabelHighlightedAt(ChartRow(groups, selected), i)) <==> 0 <= selected < |groups|
  {
    ChartRowShape(groups, selected);
    var row := ChartRow(groups, selected);
    if 0 <= selected < |groups| {
      assert LabelHighlightedAt(row, 2 * selected + 1);
    }
  }

  /** A bar inside the chart is highlighted iff its group is selected or nothing is. */
  lemma BarHighlight(groups: seq<BarGroup>, selected: int, i: nat, j: nat)
    requires i < |ChartRow(groups, selected)| && ChartRow(groups, selected)[i].Group?
    requires j < |ChartRow(groups, selected)[i].column.row| && ChartRow(groups, selected)[i].column.row[j].BarItem?
    ensures ChartRow(groups, selected)[i].column.row[j].highlighted <==>
      (IsSelected(selected, ChartRow(groups, selected)[i].index) || IsNothingSelected(selected))
  {
    HighlightRules(groups, selected);
    var g := ChartRow(groups, selected)[i];
    BarRowHighlight(groups[g.index].values, IsSelected(selected, g.index) || IsNothingSelected(selected));
  }

  /** The chart: its groups, the remembered selection and the values it has
      reported to the `onGroupSelectionChanged` callback, oldest first. */
  class BarGraph {
    const barGroups: seq<BarGroup>
    var selectedGroupIndex: int
    var reported: seq<int>

    /** The selection names a group or nothing, and it is always the value
        last reported (nothing, before any report). */
    ghost predicate Valid()
      reads this
    {
      NoSelection <= selectedGroupIndex < |barGroups| &&
      (forall k :: 0 <= k < |reported| ==> NoSelection <= reported[k] < |barGroups|) &&
      selectedGroupIndex == if reported == [] then NoSelection else reported[|reported| - 1]
    }

    /** The remembered state starts out as "nothing selected". */
    constructor (barGroups: seq<BarGroup>)
      ensures Valid()
      ensures this.barGroups == barGroups && selectedGroupIndex == NoSelection && reported == []
    {
      this.barGroups := barGroups;
      selectedGroupIndex := NoSelection;
      reported := [];
    }

    /** The groups whose `isSelected` flag is set: at most one, and none
        exactly when nothing is selected. */
    function SelectedGroups(): (s: set<nat>)
      reads this
      requires Valid()
      ensures |s| <= 1
      ensures s == {} <==> IsNothingSelected(selectedGroupIndex)
      ensures forall i: nat :: i in s <==> i < |barGroups| && IsSelected(selectedGroupIndex, i)
    {
      var s := set i: nat | i < |barGroups| && IsSelected(selectedGroupIndex, i);
      if IsNothingSelected(selectedGroupIndex) then
        assert s == {};
        s
      else
        assert s == {selectedGroupIndex as nat};
        s
    }

    /** The `onGroupSelected` callback of group `index`. */
    method OnGroupSelected(index: nat)
      requires Valid() && index < |barGroups|
      modifies this
      ensures Valid()
      ensures selectedGroupIndex == index && reported == old(reported) + [index]
    {
      selectedGroupIndex := index;
      reported := reported + [selectedGroupIndex];
    }

    /** The `onRemoveSelection` callback shared by all groups. */
    method OnRemoveSelection()
      requires Valid()
      modifies this
      ensures Valid()
      ensures selectedGroupIndex == NoSelection && reported == old(reported) + [NoSelection]
    {
      selectedGroupIndex := NoSelection;
      reported := reported + [selectedGroupIndex];
    }

    /** The pointer filter of group `index`: DOWN selects the group, UP and
        CANCEL clear the selection, anything else changes and reports
        nothing; every event is consumed. */
    method OnEvent(index: nat, action: Action) returns (consumed: bool)
      requires Valid() && index < |barGroups|
      modifies this
      ensures Valid() && consumed
      ensures action == Down ==> selectedGroupIndex == index && reported == old(reported) + [index]
      ensures action == Up || action == Cancel ==>
        selectedGroupIndex == NoSelection && reported == old(reported) + [NoSelection]
      ensures action == Other ==> selectedGroupIndex == old(selectedGroupIndex) && reported == old(reported)
    {
      match action {
        case Down => OnGroupSelected(index);
        case Up => OnRemoveSelection();
        case Cancel => OnRemoveSelection();
        case Other =>
      }
      consumed := true;
    }

    /** One render pass: the loop over the groups, under the current selection. */
    method Render() returns (row: seq<ChartItem>)
      ensures row == ChartRow(barGroups, selectedGroupIndex)
    {
      row := [];
      var index := 0;
      while index < |barGroups|
        invariant 0 <= index <= |barGroups|
        invariant row == ChartEmitted(barGroups, selectedGroupIndex, index)
      {
        if index == 0 {
          row := row + [WeightSpacer];
        }
        var column := RenderGroup(barGroups[index], IsSelected(selectedGroupIndex, index),
                                  IsNothingSelected(selectedGroupIndex));
        row := row + [Group(index, column), WeightSpacer];
        index := index + 1;
      }
    }
  }

  /** A press and release on a group, seen from a caller: the group is
      selected while the pointer is down, nothing afterwards, and the
      callback saw both values. */
  method PressAndRelease(groups: seq<BarGroup>, index: nat)
    returns (whileDown: set<nat>, afterUp: set<nat>, trace: seq<int>)
    requires index < |groups|
    ensures whileDown == {index} && afterUp == {}
    ensures trace == [index, NoSelection]
  {
    var chart := new BarGraph(groups);
    var c := chart.OnEvent(index, Down);
    whileDown := chart.SelectedGroups();
    c := chart.OnEvent(index, Up);
    afterUp := chart.SelectedGroups();
    trace := chart.reported;
  }
}
