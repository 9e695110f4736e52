/**
 * The texts the tick-label normaliser builds from integer tick values:
 * `str(int(i))`, `'{:,.0f}'.format(i)`, the thousands labels with a `K`
 * suffix, and `str(float(i))`. Tick values are integers in this model.
 */
module TickLabels {
  import opened Axes

  function DigitChar(d: int): char
    requires 0 <= d < 10
  {
    (48 + d) as char
  }

  predicate IsDigitChar(c: char)
  {
    '0' <= c <= '9'
  }

  /** Decimal digits of n, without leading zeros. */
  function Digits(n: nat): string
    decreases n
  {
    if n < 10 then [DigitChar(n)] else Digits(n / 10) + [DigitChar(n % 10)]
  }

  /** The three digits of a group below a thousand, zero padded. */
  function Pad3(r: nat): string
    requires r < 1000
  {
    [DigitChar(r / 100), DigitChar(r / 10 % 10), DigitChar(r % 10)]
  }

  /** Digits of n in groups of three separated by commas (the `,` format option). */
  function Grouped(n: nat): string
    decreases n
  {
    if n < 1000 then Digits(n) else Grouped(n / 1000) + "," + Pad3(n % 1000)
  }

  /** `str(int(i))`: the label the year flag asks for. */
  function PlainInt(i: int): string
  {
    if i < 0 then "-" + Digits(-i) else Digits(i)
  }

  /** `'{:,.0f}'.format(i)` for an integer-valued tick. */
  function CommaInt(i: int): string
  {
    if i < 0 then "-" + Grouped(-i) else Grouped(i)
  }

  /** `str(float(i))` for an integer-valued tick. */
  function FloatText(i: int): string
  {
    PlainInt(i) + ".0"
  }

  /**
   * A tick shown in thousands when every tick is a multiple of 1000:
   * `f"{i / 1000:,.0f}"` with a `K` appended, and "" for a zero tick.
   */
  function KLabel(i: int): string
    requires i % 1000 == 0
  {
    if i == 0 then "" else CommaInt(i / 1000) + "K"
  }

  /**
   * Digits after the decimal point of r / 1000 with trailing zeros removed,
   * keeping at least one digit: how a float prints its fraction.
   */
  function Fraction(r: nat): string
    requires r < 1000
  {
    if r % 10 != 0 then Pad3(r)
    else if r % 100 != 0 then Pad3(r)[..2]
    else Pad3(r)[..1]
  }

  /**
   * A tick shown in thousands when some tick is not a multiple of 1000:
   * `f"{i / 1000:,}"` prints the exact quotient as a float, e.g. "1,250.5" or
   * "1,000.0", then a `K` is appended; a zero tick gives "".
   */
  function DecimalKLabel(i: int): string
  {
    if i == 0 then ""
    else
      var m := if i < 0 then -i else i;
      (if i < 0 then "-" else "") + Grouped(m / 1000) + "." + Fraction(m % 1000) + "K"
  }

  predicate AllThousands(ticks: seq<int>)
  {
    forall k :: 0 <= k < |ticks| ==> ticks[k] % 1000 == 0
  }

  /**
   * Labels for ticks that have no labels yet: thousands with a `K` suffix when
   * the largest tick reaches 1,000,000; otherwise comma-grouped integers, or
   * bare integers when the axis is flagged as a year axis.
   */
  function DefaultLabels(ticks: seq<int>, year: bool): (r: seq<string>)
    requires |ticks| > 0
    ensures |r| == |ticks|
  {
    if Max(ticks) >= 1000000 then
      if AllThousands(ticks) then seq(|ticks|, k requires 0 <= k < |ticks| => KLabel(ticks[k]))
      else seq(|ticks|, k requires 0 <= k < |ticks| => DecimalKLabel(ticks[k]))
    else if year then seq(|ticks|, k requires 0 <= k < |ticks| => PlainInt(ticks[k]))
    else seq(|ticks|, k requires 0 <= k < |ticks| => CommaInt(ticks[k]))
  }

  /** `[str(float(i)) for i in ticks]`: what an already-rendered axis gets. */
  function FloatTexts(ticks: seq<int>): (r: seq<string>)
    ensures |r| == |ticks|
  {
    seq(|ticks|, k requires 0 <= k < |ticks| => FloatText(ticks[k]))
  }

  // ---------------------------------------------------------------------------
  // Reading labels back

  /** The number a string of decimal digits denotes. */
  function Value(s: string): int
  {
    if s == [] then 0 else Value(s[..|s| - 1]) * 10 + ((s[|s| - 1] as int) - 48)
  }

  /** The number a label denotes, with an optional leading minus sign. */
  function SignedValue(s: string): int
  {
    if |s| > 0 && s[0] == '-' then -Value(s[1..]) else Value(s)
  }

  /** The text with every comma removed. */
  function RemoveCommas(s: string): (r: string)
    ensures ',' !in r
  {
    if s == [] then [] else (if s[0] == ',' then [] else [s[0]]) + RemoveCommas(s[1..])
  }

  lemma {:induction false} RemoveCommasConcat(a: string, b: string)
    ensures RemoveCommas(a + b) == RemoveCommas(a) + RemoveCommas(b)
  {
    if a == [] {
      assert a + b == b;
    } else {
      assert (a + b)[0] == a[0];
      assert (a + b)[1..] == a[1..] + b;
      RemoveCommasConcat(a[1..], b);
    }
  }

  lemma {:induction false} RemoveCommasNone(s: string)
    requires ',' !in s
    ensures RemoveCommas(s) == s
  {
    if s != [] {
      RemoveCommasNone(s[1..]);
    }
  }

  lemma {:induction false} DigitsAreDigits(n: nat)
    ensures |Digits(n)| > 0
    ensures forall i :: 0 <= i < |Digits(n)| ==> IsDigitChar(Digits(n)[i])
    decreases n
  {
    if n >= 10 {
      DigitsAreDigits(n / 10);
    }
  }

  /** Digits(n) reads back as n. */
  lemma {:induction false} ValueOfDigits(n: nat)
    ensures Value(Digits(n)) == n
    decreases n
  {
    var d := Digits(n);
    if n < 10 {
      assert d[..0] == [];
    } else {
      ValueOfDigits(n / 10);
      assert d[..|d| - 1] == Digits(n / 10);
    }
  }

  /** The last three digits of a number of at least four digits form its last group. */
  lemma DigitsSplit(n: nat)
    requires n >= 1000
    ensures Digits(n) == Digits(n / 1000) + Pad3(n % 1000)
  {
    var q, r := n / 1000, n % 1000;
    assert n / 10 == 100 * q + r / 10;
    assert n / 10 / 10 == 10 * q + r / 100;
    assert n / 10 / 10 / 10 == q;
    assert n / 10 % 10 == r / 10 % 10;
    assert n / 10 / 10 % 10 == r / 100;
    calc {
      Digits(n);
      Digits(n / 10) + [DigitChar(n % 10)];
      Digits(n / 10 / 10) + [DigitChar(n / 10 % 10)] + [DigitChar(n % 10)];
      Digits(q) + [DigitChar(r / 100)] + [DigitChar(r / 10 % 10)] + [DigitChar(r % 10)];
      Digits(q) + Pad3(r);
    }
  }

  lemma Pad3NoComma(r: nat)
    requires r < 1000
    ensures ',' !in Pad3(r)
  {
  }

  /** Removing the commas of a grouped number gives its plain decimal digits. */
  lemma {:induction false} RemoveCommasGrouped(n: nat)
    ensures RemoveCommas(Grouped(n)) == Digits(n)
    decreases n
  {
    if n < 1000 {
      DigitsAreDigits(n);
      RemoveCommasNone(Digits(n));
    } else {
      RemoveCommasGrouped(n / 1000);
      RemoveCommasConcat(Grouped(n / 1000) + ",", Pad3(n % 1000));
      RemoveCommasConcat(Grouped(n / 1000), ",");
      Pad3NoComma(n % 1000);
      RemoveCommasNone(Pad3(n % 1000));
      DigitsSplit(n);
    }
  }

  /** A comma-grouped integer label, commas removed, is the plain integer, sign kept. */
  lemma CommaIntUngrouped(i: int)
    ensures RemoveCommas(CommaInt(i)) == PlainInt(i)
  {
    if i < 0 {
      RemoveCommasGrouped(-i);
      RemoveCommasConcat("-", Grouped(-i));
    } else {
      RemoveCommasGrouped(i);
    }
  }

  /** A plain integer label reads back as the tick. */
  lemma PlainIntReadsBack(i: int)
    ensures SignedValue(PlainInt(i)) == i
    ensures ',' !in PlainInt(i)
  {
    var n := if i < 0 then -i else i;
    ValueOfDigits(n);
    DigitsAreDigits(n);
    assert Digits(n)[0] != '-';
    if i < 0 {
      assert PlainInt(i)[1..] == Digits(n);
    }
  }

  /** The fraction of a float label is exact, shortest, and at least one digit long. */
  lemma FractionExact(r: nat)
    requires r < 1000
    ensures 1 <= |Fraction(r)| <= 3
    ensures Fraction(r) == Pad3(r)[..|Fraction(r)|]
    ensures forall j :: |Fraction(r)| <= j < 3 ==> Pad3(r)[j] == '0'
    ensures |Fraction(r)| > 1 ==> Fraction(r)[|Fraction(r)| - 1] != '0'
  {
  }

  /**
   * At or above 1,000,000 the year flag does not matter, zero ticks are
   * blank and every other label ends in `K`; when all ticks are multiples of
   * 1000, dropping the commas and the `K` reads back the tick divided by 1000.
   */
  lemma LargeTickLabel(ticks: seq<int>, year: bool, k: int)
    requires |ticks| > 0 && 0 <= k < |ticks|
    requires Max(ticks) >= 1000000
    ensures DefaultLabels(ticks, year) == DefaultLabels(ticks, !year)
    ensures DefaultLabels(ticks, year)[k] == "" <==> ticks[k] == 0
    ensures ticks[k] != 0 ==>
      var lab := DefaultLabels(ticks, year)[k];
      |lab| > 0 && lab[|lab| - 1] == 'K'
    ensures AllThousands(ticks) && ticks[k] != 0 ==>
      var lab := DefaultLabels(ticks, year)[k];
      |lab| > 0 && SignedValue(RemoveCommas(lab[..|lab| - 1])) * 1000 == ticks[k]
  {
    var t := ticks[k];
    var lab := DefaultLabels(ticks, year)[k];
    if t != 0 {
      if AllThousands(ticks) {
        assert lab == CommaInt(t / 1000) + "K";
        assert lab[..|lab| - 1] == CommaInt(t / 1000);
        CommaIntUngrouped(t / 1000);
        PlainIntReadsBack(t / 1000);
      } else {
        assert lab == DecimalKLabel(t);
      }
    }
  }

  /**
   * Below 1,000,000 a label is the comma-grouped tick, which reads back as the
   * tick once the commas are dropped; with the year flag it is the bare integer.
   */
  lemma SmallTickLabel(ticks: seq<int>, k: int)
    requires |ticks| > 0 && 0 <= k < |ticks|
    requires Max(ticks) < 1000000
    ensures RemoveCommas(DefaultLabels(ticks, false)[k]) == PlainInt(ticks[k])
    ensures SignedValue(RemoveCommas(DefaultLabels(ticks, false)[k])) == ticks[k]
    ensures DefaultLabels(ticks, true)[k] == PlainInt(ticks[k])
    ensures ',' !in DefaultLabels(ticks, true)[k]
  {
    CommaIntUngrouped(ticks[k]);
    PlainIntReadsBack(ticks[k]);
  }

  /** The abbreviation shown for a y-axis topping out at 1,250,000. */
  lemma MillionsAbbreviated()
    ensures DefaultLabels([0, 500000, 1000000, 1250000], false) == ["", "500K", "1,000K", "1,250K"]
  {
    var t := [0, 500000, 1000000, 1250000];
    assert Max(t) == 1250000;
    assert AllThousands(t);
    assert Digits(500) == "500";
    assert Grouped(1000) == "1,000";
    assert Grouped(1250) == "1,250";
    var r := DefaultLabels(t, false);
    assert r[0] == KLabel(0) == "";
    assert r[1] == KLabel(500000) == "500K";
    assert r[2] == KLabel(1000000) == "1,000K";
    assert r[3] == KLabel(1250000) == "1,250K";
  }
}
