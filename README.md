# Bluesteel Graphics formatting core, modelled in Dafny

Bluesteel Graphics draws line, area, scatter and bar charts in a house style.
Every chart passes through two groups of helpers before it is saved:

- the chart-specific helpers in `bluesteel/graphics/specific_formatting.py`,
  which choose default axis limits, place ticks, turn tick values into label
  texts (thousands with a `K` suffix from 1,000,000 up, comma-grouped
  integers below, bare integers on a year axis), and print advisories about
  label counts and long labels;
- `format_figure` in `bluesteel/graphics/standard_formatting.py`, which sets
  the title and the source note (with an en dash in year ranges and escaped
  newlines turned into real ones), the axis titles, the footer, and checks
  the keyword options it does not know.

The model replaces the plotting library by an abstract axes record
(`Axes.Figure`): per axis the view limits (each side optional, None meaning
automatic), the tick values, the tick label texts with a visibility flag per
label; plus the title, the axis titles, the footer, the bottom margin, a flag
for the left/bottom spines and the list of printed advisories. Every helper
is a method that writes to this record in the order the source does, and its
postcondition says what the record holds afterwards in terms of pure
functions; the properties the source promises are stated on those functions
and proved as lemmas. Tick values and index values are integers.

Files:

- `wrappers.dfy` — `Option`.
- `axes.dfy` — the axes record, the data table (index, index name, first column: none, a string name or another name), advisories and their texts, `Min`/`Max`.
- `tick_labels.dfy` — decimal, comma-grouped, `K` and float label texts, reading labels back, the default-label rule.
- `specific_formatting.dfy` — limit rules, tick-label rules per axis, the helper methods, the long-label loop and the hiding of alternate labels.
- `title_text.dfy` — the year-range rewrite (a left-to-right scan, a declarative description of it, and a proof that the description has exactly one solution) and the newline unescaping.
- `standard_formatting.dfy` — axis titles, footer, the known-option filter and `format_figure`.

Three consequences of the code's order of tests, which the model keeps:

- The year flag has no effect on ticks of 1,000,000 and up: the magnitude test comes before the year test, so such ticks get `K` labels whether or not they are years (`TickLabels.LargeTickLabel`).
- A zero tick gets a blank label on either axis, but only in the 1,000,000-and-up branch; below that it is labelled `0`.
- Options whose value is None are dropped silently. The rest go to the library's property setter, which rejects the names it does not know (`StandardFormatting.CheckOptions`).

Behaviour of the code that the model keeps as written:

- Python truthiness decides everything: a limit of `0` counts as not supplied, and an empty list of ticks or labels counts as not supplied.
- In `set_ticks_nonbar`, supplied tick labels are applied only together with supplied tick locations. Without locations, the labels are ignored and the default labelling is skipped as well.
- In the two bar-chart helpers, the value-axis labels are set even when the labels were already rendered. In that case they become the raw tick values as floats (`"200000.0"`).
- `.isdigit` is referenced but never called, so any four-character first label counts as a year label.

## Model

| member | source | states |
|---|---|---|
| `Axes.MessageNamesAxis` | bluesteel/graphics/specific_formatting.py:133-140 | the "too few" and "too many" messages name the axis they are about, at a fixed position |
| `Axes.MessageDetermines` | bluesteel/graphics/specific_formatting.py:133-140 | different advisories print different texts (the two label-count messages for each axis, and the horizontal-bar suggestion of lines 206-208) |
| `Axes.Min` | bluesteel/graphics/specific_formatting.py:36 | the smallest index value is one of the values and no value is below it |
| `Axes.Max` | bluesteel/graphics/specific_formatting.py:86 | the largest tick is one of the ticks and no tick is above it |
| `SpecificFormatting.MinMaxScatterFormatter` | bluesteel/graphics/specific_formatting.py:6-24 | each limit side of each axis follows its bound exactly when the bound is truthy; if neither bound is truthy the limits stay as they were; ticks and labels are untouched |
| `SpecificFormatting.MinMaxLineAreaFormatter` | bluesteel/graphics/specific_formatting.py:27-49 | fails exactly when the index range is needed and the index is empty. Otherwise: x is (xmin or the smallest index value, xmax or else the largest index value when xmin is missing, or else unchanged). y is (ymin or 0, ymax or else unchanged) |
| `SpecificFormatting.ZeroBoundIsAbsent` | bluesteel/graphics/specific_formatting.py:9-47 | under both limit policies a bound of 0 gives the same limits as a missing bound |
| `SpecificFormatting.ExplicitYLimits` | tests/test_graphics.py:136-140 | ymin = 1 and ymax = 20 give y limits exactly (1, 20) |
| `TickLabels.DefaultLabels` | bluesteel/graphics/specific_formatting.py:86-101 | one label per tick |
| `TickLabels.LargeTickLabel` | bluesteel/graphics/specific_formatting.py:86-95 | when the largest tick is at least 1,000,000: the year flag changes nothing, a label is blank iff its tick is 0, other labels end in `K`, and when every tick is a multiple of 1000, removing the commas and the `K` reads back the tick divided by 1000, sign included |
| `TickLabels.SmallTickLabel` | bluesteel/graphics/specific_formatting.py:96-101 | below 1,000,000: the label without its commas is the tick's plain decimal text and reads back as the tick, sign included; with the year flag the label is that plain text, with no comma |
| `TickLabels.MillionsAbbreviated` | bluesteel/graphics/specific_formatting.py:106-113 | ticks 0, 500000, 1000000, 1250000 are labelled "", "500K", "1,000K", "1,250K" |
| `TickLabels.RemoveCommasGrouped` | bluesteel/graphics/specific_formatting.py:98 | the comma-grouped form of a number, without its commas, is its plain decimal form |
| `TickLabels.CommaIntUngrouped` | bluesteel/graphics/specific_formatting.py:98 | `'{:,.0f}'` of an integer tick without its commas equals `str(int(tick))`, minus sign kept |
| `TickLabels.ValueOfDigits` | bluesteel/graphics/specific_formatting.py:101 | the decimal digits of n read back as n |
| `TickLabels.PlainIntReadsBack` | bluesteel/graphics/specific_formatting.py:101 | `str(int(tick))` has no comma and reads back as the tick |
| `TickLabels.FractionExact` | bluesteel/graphics/specific_formatting.py:88-90 | the fraction printed for a non-multiple of 1000 has 1 to 3 digits, is a prefix of the exact three-digit fraction whose remaining digits are zeros, and ends in a non-zero digit unless it is a single digit |
| `TickLabels.FloatTexts` | bluesteel/graphics/specific_formatting.py:177-189 | one raw float text per tick |
| `SpecificFormatting.NonbarAxis` | bluesteel/graphics/specific_formatting.py:63-120 | the axis keeps its limits and stays well formed. Its ticks are the supplied locations, if any. Supplied labels take effect only with supplied locations; without locations, supplied labels or already-rendered labels leave the axis unchanged. With no supplied labels and unrendered labels (or new locations), the labels are the default labels of the ticks, with the axis's year flag |
| `SpecificFormatting.SetTicksNonbar` | bluesteel/graphics/specific_formatting.py:52-122 | each axis ends as `NonbarAxis` of its old state: supplied labels take effect only with supplied locations; without supplied labels, unrendered labels become the default labels of the current ticks, with that axis's year flag |
| `SpecificFormatting.ValueAxis` | bluesteel/graphics/specific_formatting.py:143-189 | the value axis of a bar chart keeps its limits, stays well formed and has every label visible. Its ticks are the supplied locations, if any. Its labels are the supplied ones; or else the default labels (no year flag) when they were unrendered or the locations are new; or else the raw float texts of the ticks |
| `SpecificFormatting.IndexLabels` | bluesteel/graphics/specific_formatting.py:156-174 | one label per index row |
| `SpecificFormatting.CategoryLabels` | bluesteel/graphics/specific_formatting.py:133-175 | the category axis always ends with at least one label |
| `SpecificFormatting.LabelCountAdvice` | bluesteel/graphics/specific_formatting.py:133-141 | at most one advisory. None when no labels are supplied or their count equals the row count; "too few" iff fewer; "too many" iff labels are supplied and there are more of them than rows |
| `SpecificFormatting.NeedsHorizontalBar` | bluesteel/graphics/specific_formatting.py:198-209 | the loop with its running total and `break` answers true exactly when the test trips at some label: longer than 9, running total above 49, or longer than 6 with more than 7 labels |
| `SpecificFormatting.LongLabelRuleEquivalent` | bluesteel/graphics/specific_formatting.py:198-209 | because the running total only grows, that rule equals: some label longer than 9, or the total length above 49, or more than 7 labels with one longer than 6 |
| `SpecificFormatting.HideAlternateLabels` | bluesteel/graphics/specific_formatting.py:194-196 | labels at odd positions become invisible, the others keep their visibility; ticks, labels and limits are unchanged |
| `SpecificFormatting.AdviseOnCategoryLabels` | bluesteel/graphics/specific_formatting.py:191-209 | with a four-character first label, alternate labels are hidden when there are more than 12 and no long-label advisory is printed; otherwise the advisory is printed at most once, exactly when the long-label rule holds |
| `SpecificFormatting.AxisLabelsVbar` | bluesteel/graphics/specific_formatting.py:125-211 | fails exactly when it must build x labels from the index (none supplied) and the index is empty. Otherwise: the x labels are the supplied ones or else the index labels (with the year flag), with alternate labels hidden by the year rule. The y axis ends as `ValueAxis`. The advisories are the label-count advisory, then the long-label one, and nothing else |
| `SpecificFormatting.AxisLabelsHbar` | bluesteel/graphics/specific_formatting.py:214-271 | fails exactly when it must build y labels from the index (none supplied) and either the index is empty, or it holds numbers below 1,000,000 under the year flag: those stay integers and the 30-character wrap raises on them. Otherwise: the x axis ends as `ValueAxis`. The y labels are the supplied ones or else the index labels (with the year flag). The only advisory is the label-count one for the y axis |
| `TitleText.DashYears` | bluesteel/graphics/standard_formatting.py:36 | the length is kept, a character changes only from a hyphen to an en dash, and the positions changed are a choice of year ranges that is leftmost and non-overlapping |
| `TitleText.MatchStartsLeftmost` | bluesteel/graphics/standard_formatting.py:36 | the left-to-right scan chooses only year ranges, never two overlapping ones, and every year range it skips overlaps an earlier chosen one |
| `TitleText.LeftmostMatchesUnique` | bluesteel/graphics/standard_formatting.py:36 | only one choice of year ranges is leftmost and non-overlapping |
| `TitleText.DashYearsIsLeftmost` | bluesteel/graphics/standard_formatting.py:36 | the rewrite equals the en-dash substitution at any leftmost non-overlapping choice |
| `TitleText.ChainedRanges` | bluesteel/graphics/standard_formatting.py:65 | "1970-2016-2020" becomes "1970–2016-2020", and rewriting that again gives "1970–2016–2020", so the rewrite is not idempotent |
| `TitleText.UnescapeLeavesNoEscapes` | bluesteel/graphics/standard_formatting.py:37 | after the `\n` replacement no backslash is followed by `n` |
| `TitleText.UnescapeNoEscapes` | bluesteel/graphics/standard_formatting.py:37 | text without a backslash-n pair is left unchanged |
| `TitleText.UnescapeIdempotent` | bluesteel/graphics/standard_formatting.py:37 | replacing twice gives the same text as replacing once |
| `TitleText.UnescapeEscape` | bluesteel/graphics/standard_formatting.py:66 | writing newlines as backslash-n and replacing back gives the original text, when it had no backslash-n pair |
| `TitleText.Display` | bluesteel/graphics/standard_formatting.py:35-37 | the title/source transform turns non-empty text into non-empty text |
| `StandardFormatting.XLabelText` | bluesteel/graphics/standard_formatting.py:39-47 | the x title is set iff it is not switched off and there is a label or a string index name. It is a newline followed by the label if that is non-empty, else by the index name |
| `StandardFormatting.YLabelText` | bluesteel/graphics/standard_formatting.py:49-57 | the y title is set iff it is not switched off and there is a label or a string first-column name. It is the label if non-empty, else the column name, followed by a newline |
| `StandardFormatting.Footer` | bluesteel/graphics/standard_formatting.py:63-73 | the footer is never empty: the transformed source when one is given, else exactly "Produced with Bluesteel Graphics™." |
| `StandardFormatting.FilterOptions` | bluesteel/graphics/standard_formatting.py:97-109 | an entry is forwarded iff its name is not one of the 26 known names and its value is not None, and forwarded values are unchanged; a missing known name is not an error |
| `StandardFormatting.CheckOptions` | bluesteel/graphics/standard_formatting.py:96-109 | the options are accepted iff every forwarded name is a property the setter knows |
| `StandardFormatting.UnknownOptionRejected` | tests/test_graphics.py:69-75 | an unknown, non-None option that the setter does not know is rejected |
| `StandardFormatting.FormatFigure` | bluesteel/graphics/standard_formatting.py:17-111 | fails exactly when the y title must come from the first column and the table has no columns (line 55 raises an index error that line 56 does not catch); the y title, footer and margin are then untouched. Spines are hidden unless requested. The title is the transformed text when one is given, else unchanged. The axis titles follow `XLabelText`/`YLabelText`. When it does not fail, the footer is `Footer(source)`, the bottom margin is 0.17 either way, and the options verdict is that of `CheckOptions` |

## Left out

- Rendering: the tick-mark and padding settings of `tick_params`, the x-label rotation (`rot`), the logo scaling and placement (including `phoenix`), and the loading of the style and logo at import. These are drawing side effects with no checkable outcome in the record.
- The `except AttributeError` around `set_xticks`/`set_yticks`. It depends on the plotting library's internals.
- A scalar `ytick_loc` being wrapped into a list. Tick locations are sequences here.
- The plotting library's own tick-label bookkeeping. The record keeps the label list as it was set, even when its length differs from the number of ticks.
- `SpecificFormatting.AxisLabelsHbar`: `textwrap.fill(label, 30)` on text category labels is taken as the identity (labels are not re-wrapped); only its failure on integer labels is modelled. The `type(...) == int/float` test before numeric category labels is numpy-type behaviour and is left out: a numeric index is formatted as numbers.
- Non-integer tick and index values. Only integers are modelled: `'{:,.0f}'` rounding of floats is left out.
- `TickLabels.DecimalKLabel`: states the printed float as the exact quotient with trailing zeros trimmed. This agrees with Python's float printing only while the tick has at most 15 significant digits.
- `TickLabels.FloatText`: below 10^16 only; beyond that Python prints floats in exponent form.
- Python's `\d` also matches non-ASCII digits; the model uses ASCII digits only.
- Line and area charts over a non-numeric index; the x limits are modelled for integer index values only.
- Value checks done by the property setter beyond the name (a known property with a bad value).
- The left and bottom spines are one flag.
- `bluesteel/graphics/graphics.py`, `__main__.py`, `__init__.py` and `setup.py` (pyplot plumbing and saving, command line, font registration, packaging) are not part of this model.
