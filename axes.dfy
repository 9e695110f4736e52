/**
 * The abstract axes record that the formatting helpers write to. A figure
 * produced by a chart drawer has a single coordinate system; this module keeps
 * only what the helpers read and set on it: the view limits, the tick
 * positions, the tick label texts with a visibility flag per label, the axis
 * titles, the figure title and footer, and the advisories printed on the way.
 */
module Axes {
  import opened Wrappers

  /** Current view limits of one axis; a side that is None is still automatic. */
  datatype Limits = Limits(lo: Option<int>, hi: Option<int>)

  /**
   * One axis. A label text "" stands for a label that the plotting library has
   * not rendered yet: that is what the helpers test before they format labels.
   */
  datatype Axis = Axis(lim: Limits, ticks: seq<int>, labels: seq<string>, visible: seq<bool>)
  {
    predicate Valid()
    {
      |ticks| > 0 && |labels| > 0 && |visible| == |labels|
    }
  }

  /** `set_xlim(left, right)`: a side passed as None is kept. */
  function SetLim(a: Axis, lo: Option<int>, hi: Option<int>): Axis
  {
    a.(lim := Limits(if lo.Some? then lo else a.lim.lo, if hi.Some? then hi else a.lim.hi))
  }

  /** `set_xticks(locs)`: new tick positions whose labels are not rendered yet. */
  function SetTicks(a: Axis, locs: seq<int>): Axis
  {
    a.(ticks := locs, labels := seq(|locs|, _ => ""), visible := seq(|locs|, _ => true))
  }

  /** `set_xticklabels(texts)`: new label texts, all visible. */
  function SetLabels(a: Axis, texts: seq<string>): Axis
  {
    a.(labels := texts, visible := seq(|texts|, _ => true))
  }

  /** The index of the data table: numbers (years, counts) or category names. */
  datatype Index = Numbers(values: seq<int>) | Names(names: seq<string>)
  {
    function Rows(): nat
    {
      match this
      case Numbers(vs) => |vs|
      case Names(ns) => |ns|
    }
  }

  /**
   * The table's first column as the y-axis title sees it: there is none, its
   * name is a string, or its name is something else.
   */
  datatype FirstColumn = NoColumns | TextColumn(name: string) | OtherColumn

  /**
   * What the formatting code reads from the data table: its index, the index's
   * name (None when it is not a string) and its first column.
   */
  datatype Table = Table(index: Index, indexName: Option<string>, firstColumn: FirstColumn)

  datatype AxisName = XAxis | YAxis

  /** A printed suggestion; it never stops the formatting. */
  datatype Advisory = TooFewLabels(axis: AxisName) | TooManyLabels(axis: AxisName) | ConsiderHorizontalBar

  function AxisWord(axis: AxisName): string
  {
    if axis == XAxis then "x-axis" else "y-axis"
  }

  /** The text the source prints for each advisory. */
  function Message(a: Advisory): string
  {
    match a
    case TooFewLabels(axis) =>
      "You have supplied too few " + AxisWord(axis) + " labels. Please provide the correct number of labels. "
      + "Input \" \" to the list add a blank label."
    case TooManyLabels(axis) =>
      "You have supplied too many " + AxisWord(axis) + " labels. Please provide the correct number of labels."
    case ConsiderHorizontalBar =>
      "You may want to consider using a horizontal_bar chart so that all of your x-axis labels are readable. "
      + "Use the command --kind horizontal_bar"
  }

  /** Each label-count message names its own axis, at a fixed position. */
  lemma MessageNamesAxis(axis: AxisName)
    ensures Message(TooFewLabels(axis))[26..32] == AxisWord(axis)
    ensures Message(TooManyLabels(axis))[27..33] == AxisWord(axis)
  {
  }

  /** Different advisories print different texts, so the printed text tells which one was given. */
  lemma MessageDetermines(a: Advisory, b: Advisory)
    ensures Message(a) == Message(b) ==> a == b
  {
    if Message(a) == Message(b) {
      assert Message(a)[4] == Message(b)[4];
      assert a.ConsiderHorizontalBar? <==> b.ConsiderHorizontalBar?;
      if !a.ConsiderHorizontalBar? {
        assert Message(a)[22] == Message(b)[22];
        assert a.TooFewLabels? <==> b.TooFewLabels?;
        MessageNamesAxis(a.axis);
        MessageNamesAxis(b.axis);
        if a.TooFewLabels? {
          assert AxisWord(a.axis) == Message(a)[26..32] == AxisWord(b.axis);
        } else {
          assert AxisWord(a.axis) == Message(a)[27..33] == AxisWord(b.axis);
        }
        assert AxisWord(a.axis)[0] == AxisWord(b.axis)[0];
      }
    }
  }

  /** The smallest element of a non-empty sequence (`values.min()`). */
  function Min(s: seq<int>): (m: int)
    requires |s| > 0
    ensures m in s
    ensures forall i :: 0 <= i < |s| ==> m <= s[i]
  {
    if |s| == 1 then s[0]
    else
      var rest := Min(s[1..]);
      if s[0] <= rest then s[0] else rest
  }

  /** The largest element of a non-empty sequence (`max(ticks)`). */
  function Max(s: seq<int>): (m: int)
    requires |s| > 0
    ensures m in s
    ensures forall i :: 0 <= i < |s| ==> s[i] <= m
  {
    if |s| == 1 then s[0]
    else
      var rest := Max(s[1..]);
      if s[0] >= rest then s[0] else rest
  }

  /**
   * A figure with its one coordinate system, as a chart drawer hands it to the
   * formatting helpers.
   */
  class Figure {
    var x: Axis
    var y: Axis
    var title: string
    var xLabel: string
    var yLabel: string
    var spinesVisible: bool
    var footer: string
    var bottomMargin: real
    var advisories: seq<Advisory>

    ghost predicate Valid()
      reads this
    {
      x.Valid() && y.Valid()
    }

    /** A freshly drawn figure: automatic limits, default ticks, nothing labelled. */
    constructor (xTicks: seq<int>, yTicks: seq<int>)
      requires |xTicks| > 0 && |yTicks| > 0
      ensures Valid()
      ensures x == Axis(Limits(None, None), xTicks, seq(|xTicks|, _ => ""), seq(|xTicks|, _ => true))
      ensures y == Axis(Limits(None, None), yTicks, seq(|yTicks|, _ => ""), seq(|yTicks|, _ => true))
      ensures title == "" && xLabel == "" && yLabel == "" && footer == ""
      ensures spinesVisible && bottomMargin == 0.11 && advisories == []
    {
      x := Axis(Limits(None, None), xTicks, seq(|xTicks|, _ => ""), seq(|xTicks|, _ => true));
      y := Axis(Limits(None, None), yTicks, seq(|yTicks|, _ => ""), seq(|yTicks|, _ => true));
      title, xLabel, yLabel, footer := "", "", "", "";
      spinesVisible, bottomMargin, advisories := true, 0.11, [];
    }
  }
}
