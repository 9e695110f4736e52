/**
 * The chart-specific helpers: default axis limits for scatter and for
 * line/area charts, tick placement and label normalisation for non-bar,
 * vertical-bar and horizontal-bar charts, the label-count and long-label
 * advisories, and the hiding of every second year label.
 *
 * Each helper is a method that writes to the axes record in the order the
 * source does; what it leaves behind is stated with the per-axis functions
 * below, which say what each axis ends up as.
 */
module SpecificFormatting {
  import opened Wrappers
  import opened Axes
  import opened TickLabels

  /** A limit keyword as the caller passed it: None, or a number. */
  type Bound = Option<int>

  /** Python truthiness of a bound: None and 0 both count as "not supplied". */
  predicate Truthy(b: Bound)
  {
    b.Some? && b.value != 0
  }

  // ---------------------------------------------------------------------------
  // Axis limits

  /** Scatter charts: each side follows its bound when the bound is truthy, and is left alone otherwise. */
  function ScatterLimits(cur: Limits, lo: Bound, hi: Bound): Limits
  {
    Limits(if Truthy(lo) then lo else cur.lo, if Truthy(hi) then hi else cur.hi)
  }

  /**
   * Line and area charts, x axis: the left side is xmin or else the smallest
   * index value; the right side is xmax, or else the largest index value when
   * xmin is missing too, or else left alone.
   */
  function LineAreaXLimits(cur: Limits, index: seq<int>, xmin: Bound, xmax: Bound): Limits
    requires Truthy(xmin) || |index| > 0
  {
    Limits(Some(if Truthy(xmin) then xmin.value else Min(index)),
           if Truthy(xmax) then xmax else if Truthy(xmin) then cur.hi else Some(Max(index)))
  }

  /** Line and area charts, y axis: the bottom is ymin or else 0; the top is ymax or else left alone. */
  function LineAreaYLimits(cur: Limits, ymin: Bound, ymax: Bound): Limits
  {
    Limits(Some(if Truthy(ymin) then ymin.value else 0), if Truthy(ymax) then ymax else cur.hi)
  }

  /** `min_max_scatter_formatter`. */
  method MinMaxScatterFormatter(fig: Figure, xmin: Bound, xmax: Bound, ymin: Bound, ymax: Bound)
    modifies fig`x, fig`y
    ensures fig.x == old(fig.x).(lim := ScatterLimits(old(fig.x.lim), xmin, xmax))
    ensures fig.y == old(fig.y).(lim := ScatterLimits(old(fig.y.lim), ymin, ymax))
  {
    if Truthy(xmin) {
      if Truthy(xmax) {
        fig.x := SetLim(fig.x, xmin, xmax);
      } else {
        fig.x := SetLim(fig.x, xmin, None);
      }
    } else if Truthy(xmax) {
      fig.x := SetLim(fig.x, None, xmax);
    }
    if Truthy(ymin) {
      if Truthy(ymax) {
        fig.y := SetLim(fig.y, ymin, ymax);
      } else {
        fig.y := SetLim(fig.y, ymin, None);
      }
    } else if Truthy(ymax) {
      fig.y := SetLim(fig.y, None, ymax);
    }
  }

  /**
   * `min_max_line_area_formatter`. It fails (`ok` is false; the source raises
   * from `min()` of an empty index) exactly when it needs the index range and
   * the index is empty.
   */
  method MinMaxLineAreaFormatter(fig: Figure, index: seq<int>, xmin: Bound, xmax: Bound, ymin: Bound, ymax: Bound)
    returns (ok: bool)
    modifies fig`x, fig`y
    ensures ok <==> Truthy(xmin) || |index| > 0
    ensures ok ==> fig.x == old(fig.x).(lim := LineAreaXLimits(old(fig.x.lim), index, xmin, xmax))
    ensures ok ==> fig.y == old(fig.y).(lim := LineAreaYLimits(old(fig.y.lim), ymin, ymax))
  {
    if Truthy(xmin) {
      if Truthy(xmax) {
        fig.x := SetLim(fig.x, xmin, xmax);
      } else {
        fig.x := SetLim(fig.x, xmin, None);
      }
    } else if Truthy(xmax) {
      if |index| == 0 {
        return false;
      }
      fig.x := SetLim(fig.x, Some(Min(index)), xmax);
    }
    if Truthy(ymin) {
      if Truthy(ymax) {
        fig.y := SetLim(fig.y, ymin, ymax);
      } else {
        fig.y := SetLim(fig.y, ymin, None);
      }
    } else if Truthy(ymax) {
      fig.y := SetLim(fig.y, Some(0), ymax);
    }
    if !Truthy(xmin) && !Truthy(xmax) {
      if |index| == 0 {
        return false;
      }
      fig.x := SetLim(fig.x, Some(Min(index)), Some(Max(index)));
    }
    if !Truthy(ymin) && !Truthy(ymax) {
      fig.y := SetLim(fig.y, Some(0), None);
    }
    ok := true;
  }

  /** A bound of 0 behaves as a missing bound under both limit policies. */
  lemma ZeroBoundIsAbsent(cur: Limits, index: seq<int>, b: Bound)
    requires |index| > 0
    ensures ScatterLimits(cur, Some(0), b) == ScatterLimits(cur, None, b)
    ensures ScatterLimits(cur, b, Some(0)) == ScatterLimits(cur, b, None)
    ensures LineAreaXLimits(cur, index, Some(0), b) == LineAreaXLimits(cur, index, None, b)
    ensures LineAreaXLimits(cur, index, b, Some(0)) == LineAreaXLimits(cur, index, b, None)
    ensures LineAreaYLimits(cur, Some(0), b) == LineAreaYLimits(cur, None, b)
    ensures LineAreaYLimits(cur, b, Some(0)) == LineAreaYLimits(cur, b, None)
  {
  }

  /** ymin = 1, ymax = 20 gives exactly the y limits (1, 20). */
  lemma ExplicitYLimits(cur: Limits)
    ensures LineAreaYLimits(cur, Some(1), Some(20)) == Limits(Some(1), Some(20))
  {
  }

  // ---------------------------------------------------------------------------
  // Tick labels

  /**
   * One axis after `set_ticks_nonbar`: supplied labels are applied only
   * together with supplied locations; with no supplied labels, labels not yet
   * rendered are replaced by the default labels of the (possibly new) ticks.
   */
  function NonbarAxis(a: Axis, loc: seq<int>, labels: seq<string>, year: bool): (r: Axis)
    requires a.Valid()
    ensures r.Valid() && r.lim == a.lim
    ensures r.ticks == if |loc| > 0 then loc else a.ticks
    ensures |labels| > 0 && |loc| > 0 ==> r.labels == labels
    ensures |loc| == 0 && (|labels| > 0 || a.labels[0] != "") ==> r == a
    ensures |labels| == 0 && (|loc| > 0 || a.labels[0] == "") ==> r.labels == DefaultLabels(r.ticks, year)
    ensures r != a ==> forall i :: 0 <= i < |r.visible| ==> r.visible[i]
  {
    if |loc| > 0 then
      if |labels| > 0 then SetLabels(SetTicks(a, loc), labels)
      else SetLabels(SetTicks(a, loc), DefaultLabels(loc, year))
    else if |labels| > 0 || a.labels[0] != "" then a
    else SetLabels(a, DefaultLabels(a.ticks, year))
  }

  /**
   * The value axis of a bar chart (the y axis of a vertical bar chart, the x
   * axis of a horizontal one): locations and labels are applied when supplied;
   * without supplied labels, unrendered labels get the default labels and
   * rendered ones are overwritten with the raw tick values.
   */
  function ValueAxis(a: Axis, loc: seq<int>, labels: seq<string>): (r: Axis)
    requires a.Valid()
    ensures r.Valid() && r.lim == a.lim
    ensures r.ticks == if |loc| > 0 then loc else a.ticks
    ensures |labels| > 0 ==> r.labels == labels
    ensures |labels| == 0 && (|loc| > 0 || a.labels[0] == "") ==> r.labels == DefaultLabels(r.ticks, false)
    ensures |labels| == 0 && |loc| == 0 && a.labels[0] != "" ==> r.labels == FloatTexts(a.ticks)
    ensures forall i :: 0 <= i < |r.visible| ==> r.visible[i]
  {
    var placed := if |loc| > 0 then SetTicks(a, loc) else a;
    if |labels| > 0 then SetLabels(placed, labels)
    else if placed.labels[0] == "" then SetLabels(placed, DefaultLabels(placed.ticks, false))
    else SetLabels(placed, FloatTexts(placed.ticks))
  }

  /** Labels made from the index: category names as they are, numbers as default labels. */
  function IndexLabels(index: Index, year: bool): (r: seq<string>)
    requires index.Rows() > 0
    ensures |r| == index.Rows()
  {
    match index
    case Numbers(vs) => DefaultLabels(vs, year)
    case Names(ns) => ns
  }

  /** The category axis of a bar chart: the supplied labels, or else the index labels. */
  function CategoryLabels(index: Index, supplied: seq<string>, year: bool): (r: seq<string>)
    requires |supplied| > 0 || index.Rows() > 0
    ensures |r| > 0
  {
    if |supplied| > 0 then supplied else IndexLabels(index, year)
  }

  /** The label-count advisory for supplied category labels against the number of index rows. */
  function LabelCountAdvice(axis: AxisName, supplied: seq<string>, rows: nat): (r: seq<Advisory>)
    ensures |r| <= 1
    ensures r == [] <==> |supplied| == 0 || |supplied| == rows
    ensures r == [TooFewLabels(axis)] <==> 0 < |supplied| < rows
    ensures r == [TooManyLabels(axis)] <==> 0 < |supplied| && rows < |supplied|
  {
    if |supplied| == 0 then []
    else if |supplied| < rows then [TooFewLabels(axis)]
    else if |supplied| > rows then [TooManyLabels(axis)]
    else []
  }

  /** `set_ticks_nonbar`. */
  method SetTicksNonbar(fig: Figure, xtickLoc: seq<int>, xticklabels: seq<string>,
                        ytickLoc: seq<int>, yticklabels: seq<string>, xyear: bool, yyear: bool)
    requires fig.Valid()
    modifies fig`x, fig`y
    ensures fig.Valid()
    ensures fig.x == NonbarAxis(old(fig.x), xtickLoc, xticklabels, xyear)
    ensures fig.y == NonbarAxis(old(fig.y), ytickLoc, yticklabels, yyear)
  {
    if |xtickLoc| > 0 {
      fig.x := SetTicks(fig.x, xtickLoc);
      if |xticklabels| > 0 {
        fig.x := SetLabels(fig.x, xticklabels);
      }
    }
    if |ytickLoc| > 0 {
      fig.y := SetTicks(fig.y, ytickLoc);
      if |yticklabels| > 0 {
        fig.y := SetLabels(fig.y, yticklabels);
      }
    }
    if |xticklabels| == 0 {
      if fig.x.labels[0] == "" {
        fig.x := SetLabels(fig.x, DefaultLabels(fig.x.ticks, xyear));
      }
    }
    if |yticklabels| == 0 {
      if fig.y.labels[0] == "" {
        fig.y := SetLabels(fig.y, DefaultLabels(fig.y.ticks, yyear));
      }
    }
  }

  // ---------------------------------------------------------------------------
  // Long labels and year labels on the category axis of a vertical bar chart

  function Lengths(labels: seq<string>): (r: seq<nat>)
    ensures |r| == |labels|
  {
    seq(|labels|, j requires 0 <= j < |labels| => |labels[j]|)
  }

  function Sum(xs: seq<nat>): nat
  {
    if xs == [] then 0 else Sum(xs[..|xs| - 1]) + xs[|xs| - 1]
  }

  /** Total length of the labels. */
  function TotalLength(labels: seq<string>): nat
  {
    Sum(Lengths(labels))
  }

  /** The test made at label k, with the running total of the lengths up to and including it. */
  predicate TripsAt(labels: seq<string>, k: int)
    requires 0 <= k < |labels|
  {
    |labels[k]| > 9 || TotalLength(labels[..k + 1]) > 49 || (|labels[k]| > 6 && |labels| > 7)
  }

  /** The source's rule: the advisory is printed when the test trips at some label. */
  predicate LongLabelRule(labels: seq<string>)
  {
    exists k :: 0 <= k < |labels| && TripsAt(labels, k)
  }

  /**
   * The loop over the labels that decides the horizontal-bar advisory: it
   * keeps the list of lengths and their running total and stops at the first
   * label that trips the test.
   */
  method NeedsHorizontalBar(labels: seq<string>) returns (advise: bool)
    ensures advise == LongLabelRule(labels)
  {
    var lengths: seq<nat> := [];
    var total := 0;
    advise := false;
    var i := 0;
    while i < |labels|
      invariant 0 <= i <= |labels|
      invariant lengths == Lengths(labels[..i])
      invariant !advise
      invariant forall j :: 0 <= j < i ==> !TripsAt(labels, j)
    {
      assert Lengths(labels[..i + 1]) == lengths + [|labels[i]|];
      lengths := lengths + [|labels[i]|];
      assert lengths[..|lengths| - 1] == Lengths(labels[..i]);
      total := Sum(lengths);
      if |labels[i]| > 9 || total > 49 || (|labels[i]| > 6 && |labels| > 7) {
        assert TripsAt(labels, i);
        advise := true;
        break;
      }
      i := i + 1;
    }
  }

  lemma {:induction false} SumPrefix(xs: seq<nat>, k: int)
    requires 0 <= k <= |xs|
    ensures Sum(xs[..k]) <= Sum(xs)
    decreases |xs|
  {
    if k < |xs| {
      var init := xs[..|xs| - 1];
      assert xs[..k] == init[..k];
      SumPrefix(init, k);
    } else {
      assert xs[..k] == xs;
    }
  }

  /**
   * Because the running total only grows, the rule is the same as: some label
   * is longer than 9, or all labels together are longer than 49, or there are
   * more than 7 labels and one of them is longer than 6.
   */
  lemma LongLabelRuleEquivalent(labels: seq<string>)
    ensures LongLabelRule(labels) <==>
      (exists k :: 0 <= k < |labels| && |labels[k]| > 9)
      || TotalLength(labels) > 49
      || (|labels| > 7 && exists k :: 0 <= k < |labels| && |labels[k]| > 6)
  {
    if LongLabelRule(labels) {
      var k :| 0 <= k < |labels| && TripsAt(labels, k);
      if TotalLength(labels[..k + 1]) > 49 {
        assert Lengths(labels[..k + 1]) == Lengths(labels)[..k + 1];
        SumPrefix(Lengths(labels), k + 1);
      }
    }
    if exists k :: 0 <= k < |labels| && |labels[k]| > 9 {
      var k :| 0 <= k < |labels| && |labels[k]| > 9;
      assert TripsAt(labels, k);
    }
    if |labels| > 7 && exists k :: 0 <= k < |labels| && |labels[k]| > 6 {
      var k :| 0 <= k < |labels| && |labels[k]| > 6;
      assert TripsAt(labels, k);
    }
    if TotalLength(labels) > 49 {
      assert |labels| > 0;
      assert labels[..|labels|] == labels;
      assert TripsAt(labels, |labels| - 1);
    }
  }

  /** The year-label rule: a four-character first label and more than 12 labels. */
  predicate HidesAlternate(labels: seq<string>)
    requires |labels| > 0
  {
    |labels[0]| == 4 && |labels| > 12
  }

  /** Labels at odd positions become invisible; the others keep their visibility. */
  method HideAlternateLabels(fig: Figure)
    modifies fig`x
    ensures fig.x.lim == old(fig.x.lim) && fig.x.ticks == old(fig.x.ticks) && fig.x.labels == old(fig.x.labels)
    ensures |fig.x.visible| == |old(fig.x.visible)|
    ensures forall i :: 0 <= i < |fig.x.visible| ==> fig.x.visible[i] == (old(fig.x.visible[i]) && i % 2 == 0)
  {
    var i := 1;
    while i < |fig.x.visible|
      invariant 1 <= i && i % 2 == 1
      invariant fig.x.lim == old(fig.x.lim) && fig.x.ticks == old(fig.x.ticks) && fig.x.labels == old(fig.x.labels)
      invariant |fig.x.visible| == |old(fig.x.visible)|
      invariant i <= |fig.x.visible| + 1
      invariant forall j :: 0 <= j < |fig.x.visible| ==>
        fig.x.visible[j] == (old(fig.x.visible[j]) && (j >= i || j % 2 == 0))
    {
      fig.x := fig.x.(visible := fig.x.visible[i := false]);
      i := i + 2;
    }
  }

  /**
   * The end of `axis_labels_vbar`: a four-character first label means year
   * labels, and with more than 12 of them every second one is hidden; any
   * other first label runs the long-label check, which prints at most once.
   */
  method AdviseOnCategoryLabels(fig: Figure)
    requires fig.x.Valid()
    modifies fig`x, fig`advisories
    ensures fig.x.Valid()
    ensures fig.x.lim == old(fig.x.lim) && fig.x.ticks == old(fig.x.ticks) && fig.x.labels == old(fig.x.labels)
    ensures forall i :: 0 <= i < |fig.x.visible| ==>
      fig.x.visible[i] == (old(fig.x.visible[i]) && !(HidesAlternate(fig.x.labels) && i % 2 == 1))
    ensures fig.advisories == old(fig.advisories)
      + (if |fig.x.labels[0]| != 4 && LongLabelRule(fig.x.labels) then [ConsiderHorizontalBar] else [])
  {
    var first := fig.x.labels[0];
    if |first| == 4 {
      if |fig.x.labels| > 12 {
        HideAlternateLabels(fig);
      }
    } else {
      var advise := NeedsHorizontalBar(fig.x.labels);
      if advise {
        fig.advisories := fig.advisories + [ConsiderHorizontalBar];
      }
    }
  }

  /** `axis_labels_vbar`. It fails (`ok` is false; the source raises) when it must label an empty index. */
  method AxisLabelsVbar(fig: Figure, table: Table, xyear: bool, xticklabels: seq<string>,
                        ytickLoc: seq<int>, yticklabels: seq<string>)
    returns (ok: bool)
    requires fig.Valid()
    modifies fig`x, fig`y, fig`advisories
    ensures ok <==> |xticklabels| > 0 || table.index.Rows() > 0
    ensures ok ==> fig.Valid()
    ensures ok ==> fig.y == ValueAxis(old(fig.y), ytickLoc, yticklabels)
    ensures ok ==> fig.x.lim == old(fig.x.lim) && fig.x.ticks == old(fig.x.ticks)
    ensures ok ==> fig.x.labels == CategoryLabels(table.index, xticklabels, xyear)
    ensures ok ==> forall i :: 0 <= i < |fig.x.visible| ==>
      fig.x.visible[i] == !(HidesAlternate(fig.x.labels) && i % 2 == 1)
    ensures ok ==> (fig.advisories == old(fig.advisories)
      + LabelCountAdvice(XAxis, xticklabels, table.index.Rows())
      + (if |fig.x.labels[0]| != 4 && LongLabelRule(fig.x.labels) then [ConsiderHorizontalBar] else []))
  {
    if |xticklabels| > 0 {
      fig.advisories := fig.advisories + LabelCountAdvice(XAxis, xticklabels, table.index.Rows());
      fig.x := SetLabels(fig.x, xticklabels);
    }
    if |ytickLoc| > 0 {
      fig.y := SetTicks(fig.y, ytickLoc);
    }
    if |yticklabels| > 0 {
      fig.y := SetLabels(fig.y, yticklabels);
    }
    if |xticklabels| == 0 {
      if table.index.Rows() == 0 {
        return false;
      }
      fig.x := SetLabels(fig.x, IndexLabels(table.index, xyear));
    }
    if |yticklabels| == 0 {
      if fig.y.labels[0] == "" {
        fig.y := SetLabels(fig.y, DefaultLabels(fig.y.ticks, false));
      } else {
        fig.y := SetLabels(fig.y, FloatTexts(fig.y.ticks));
      }
    }
    AdviseOnCategoryLabels(fig);
    ok := true;
  }

  /**
   * The horizontal bar's category labels are wrapped at 30 characters, which
   * takes text only. Year-flagged numbers below one million are left as
   * integers, so the wrap raises on them.
   */
  predicate WrapRejects(index: Index, year: bool)
    requires index.Rows() > 0
  {
    index.Numbers? && year && Max(index.values) < 1000000
  }

  /**
   * `axis_labels_hbar`. It fails (`ok` is false; the source raises) when it
   * must label an empty index, or when the index labels it must wrap are
   * integers. Wrapping text labels at 30 characters is not part of this model.
   */
  method AxisLabelsHbar(fig: Figure, table: Table, xtickLoc: seq<int>, xticklabels: seq<string>,
                        yticklabels: seq<string>, yyear: bool)
    returns (ok: bool)
    requires fig.Valid()
    modifies fig`x, fig`y, fig`advisories
    ensures ok <==> |yticklabels| > 0 || (table.index.Rows() > 0 && !WrapRejects(table.index, yyear))
    ensures ok ==> fig.Valid()
    ensures ok ==> fig.x == ValueAxis(old(fig.x), xtickLoc, xticklabels)
    ensures ok ==> fig.y == SetLabels(old(fig.y), CategoryLabels(table.index, yticklabels, yyear))
    ensures ok ==> fig.advisories == old(fig.advisories) + LabelCountAdvice(YAxis, yticklabels, table.index.Rows())
  {
    if |yticklabels| > 0 {
      fig.advisories := fig.advisories + LabelCountAdvice(YAxis, yticklabels, table.index.Rows());
      fig.y := SetLabels(fig.y, yticklabels);
    }
    if |xtickLoc| > 0 {
      fig.x := SetTicks(fig.x, xtickLoc);
    }
    if |xticklabels| > 0 {
      fig.x := SetLabels(fig.x, xticklabels);
    }
    if |xticklabels| == 0 {
      if fig.x.labels[0] == "" {
        fig.x := SetLabels(fig.x, DefaultLabels(fig.x.ticks, false));
      } else {
        fig.x := SetLabels(fig.x, FloatTexts(fig.x.ticks));
      }
    }
    if |yticklabels| == 0 {
      if table.index.Rows() == 0 || WrapRejects(table.index, yyear) {
        return false;
      }
      fig.y := SetLabels(fig.y, IndexLabels(table.index, yyear));
    }
    ok := true;
  }
}
