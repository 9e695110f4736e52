/**
 * `format_figure`, the formatting every chart goes through: spines, the
 * title, the axis titles, the source note or brand footer, and the check of
 * the keyword options it does not know.
 */
module StandardFormatting {
  import opened Wrappers
  import opened Axes
  import opened TitleText

  /** The named options of `format_figure` (`rot` and `phoenix` are not part of this model). */
  datatype FigureOptions = FigureOptions(
    spines: bool,
    title: Option<string>,
    xlabelOff: bool,
    ylabelOff: bool,
    xlabel: Option<string>,
    ylabel: Option<string>,
    source: Option<string>)

  /** Python truthiness of an optional text: present and not empty. */
  predicate Given(t: Option<string>)
  {
    t.Some? && t.value != ""
  }

  /**
   * The x-axis title: a newline and then the caller's label, or else the
   * index's name when that is a string; None means the title is left as it is.
   */
  function XLabelText(off: bool, xlabel: Option<string>, indexName: Option<string>): (r: Option<string>)
    ensures r.Some? <==> !off && (Given(xlabel) || indexName.Some?)
    ensures r.Some? ==> |r.value| > 0 && r.value[0] == '\n'
    ensures r.Some? && Given(xlabel) ==> r.value[1..] == xlabel.value
    ensures r.Some? && !Given(xlabel) ==> r.value[1..] == indexName.value
  {
    if off then None
    else if Given(xlabel) then Some("\n" + xlabel.value)
    else if indexName.Some? then Some("\n" + indexName.value)
    else None
  }

  /**
   * The y-axis title: the caller's label, or else the first column's name when
   * that is a string, followed by a newline; None means it is left as it is.
   */
  function YLabelText(off: bool, ylabel: Option<string>, first: FirstColumn): (r: Option<string>)
    ensures r.Some? <==> !off && (Given(ylabel) || first.TextColumn?)
    ensures r.Some? ==> |r.value| > 0 && r.value[|r.value| - 1] == '\n'
    ensures r.Some? && Given(ylabel) ==> r.value[..|r.value| - 1] == ylabel.value
    ensures r.Some? && !Given(ylabel) ==> r.value[..|r.value| - 1] == first.name
  {
    if off then None
    else if Given(ylabel) then Some(ylabel.value + "\n")
    else if first.TextColumn? then Some(first.name + "\n")
    else None
  }

  /**
   * The y-axis title raises: it must be taken from the first column and the
   * table has none (an index error, which only a type error is caught for).
   */
  predicate YLabelRaises(off: bool, ylabel: Option<string>, first: FirstColumn)
  {
    !off && !Given(ylabel) && first.NoColumns?
  }

  const BrandNotice: string := "Produced with Bluesteel Graphics\U{2122}."

  /** The bottom margin reserved for the footer, with or without a source. */
  const FooterMargin: real := 0.17

  /**
   * The footer under the plot: the source note, transformed like the title,
   * or else the brand notice. Either way the figure carries a footer.
   */
  function Footer(source: Option<string>): (r: string)
    ensures |r| > 0
    ensures Given(source) ==> r == Display(source.value)
    ensures !Given(source) ==> r == BrandNotice
  {
    if Given(source) then Display(source.value) else BrandNotice
  }

  /** A keyword argument value; only None matters to the filter. */
  datatype Arg = NoneArg | BoolArg(b: bool) | IntArg(i: int) | TextArg(s: string)

  /** The 26 option names removed before the remaining options are checked. */
  const KnownOptions: seq<string> := [
    "kind", "title", "size", "xmin", "ymin", "ymax", "xmax",
    "xlabel", "ylabel", "source", "spines", "xtick_loc",
    "ytick_loc", "xticklabels", "yticklabels", "xyear",
    "yyear", "rot", "xlabel_off", "ylabel_off", "label_bars",
    "label_lines", "label_area", "line_thickness",
    "color", "grid"]

  /**
   * Pops every known name from the keyword arguments (a missing one is
   * skipped), then keeps the entries whose value is not None: the options
   * handed on to the plotting library's property setter.
   */
  method FilterOptions(kwargs: map<string, Arg>) returns (forwarded: map<string, Arg>)
    ensures forall k :: k in forwarded <==> k in kwargs && k !in KnownOptions && kwargs[k] != NoneArg
    ensures forall k :: k in forwarded ==> forwarded[k] == kwargs[k]
  {
    var rest := kwargs;
    for i := 0 to |KnownOptions|
      invariant forall k :: k in rest <==> k in kwargs && k !in KnownOptions[..i]
      invariant forall k :: k in rest ==> rest[k] == kwargs[k]
    {
      var name := KnownOptions[i];
      assert KnownOptions[..i + 1] == KnownOptions[..i] + [name];
      if name in rest {
        rest := rest - {name};
      }
    }
    assert KnownOptions[..|KnownOptions|] == KnownOptions;
    forwarded := map k | k in rest && rest[k] != NoneArg :: rest[k];
  }

  /**
   * The options are accepted when every forwarded name is a property the
   * library can set; otherwise the setter raises.
   */
  predicate Accepted(kwargs: map<string, Arg>, settable: set<string>)
  {
    forall k :: k in kwargs && k !in KnownOptions && kwargs[k] != NoneArg ==> k in settable
  }

  /** The options that survive the filter are handed to the setter, which accepts only names it knows. */
  method CheckOptions(kwargs: map<string, Arg>, settable: set<string>) returns (accepted: bool)
    ensures accepted == Accepted(kwargs, settable)
  {
    var forwarded := FilterOptions(kwargs);
    accepted := forwarded.Keys <= settable;
    if accepted {
      forall k | k in kwargs && k !in KnownOptions && kwargs[k] != NoneArg
        ensures k in settable
      {
        assert k in forwarded;
      }
    }
  }

  /** An unknown name with a value, such as fake_param=True, is rejected. */
  lemma UnknownOptionRejected(kwargs: map<string, Arg>, settable: set<string>, name: string)
    requires name in kwargs && kwargs[name] != NoneArg
    requires name !in KnownOptions && name !in settable
    ensures !Accepted(kwargs, settable)
  {
  }

  /**
   * `format_figure`. `settable` is the set of property names the plotting
   * library's setter knows. `ok` is false when the y-axis title raises, which
   * leaves the y title, footer and margin untouched; `accepted` is false when
   * the source raises at the option check.
   */
  method FormatFigure(fig: Figure, table: Table, opts: FigureOptions, kwargs: map<string, Arg>,
                      settable: set<string>)
    returns (ok: bool, accepted: bool)
    modifies fig`spinesVisible, fig`title, fig`xLabel, fig`yLabel, fig`footer, fig`bottomMargin
    ensures ok <==> !YLabelRaises(opts.ylabelOff, opts.ylabel, table.firstColumn)
    ensures fig.spinesVisible == (opts.spines && old(fig.spinesVisible))
    ensures fig.title == if Given(opts.title) then Display(opts.title.value) else old(fig.title)
    ensures fig.xLabel == XLabelText(opts.xlabelOff, opts.xlabel, table.indexName).GetOr(old(fig.xLabel))
    ensures fig.yLabel == YLabelText(opts.ylabelOff, opts.ylabel, table.firstColumn).GetOr(old(fig.yLabel))
    ensures !ok ==> fig.footer == old(fig.footer) && fig.bottomMargin == old(fig.bottomMargin) && !accepted
    ensures ok ==> fig.footer == Footer(opts.source)
    ensures ok ==> fig.bottomMargin == FooterMargin
    ensures ok ==> accepted == Accepted(kwargs, settable)
  {
    if !opts.spines {
      fig.spinesVisible := false;
    }
    if Given(opts.title) {
      fig.title := Display(opts.title.value);
    }
    var xText := XLabelText(opts.xlabelOff, opts.xlabel, table.indexName);
    if xText.Some? {
      fig.xLabel := xText.value;
    }
    if YLabelRaises(opts.ylabelOff, opts.ylabel, table.firstColumn) {
      return false, false;
    }
    var yText := YLabelText(opts.ylabelOff, opts.ylabel, table.firstColumn);
    if yText.Some? {
      fig.yLabel := yText.value;
    }
    fig.footer := Footer(opts.source);
    fig.bottomMargin := FooterMargin;
    accepted := CheckOptions(kwargs, settable);
    ok := true;
  }
}
