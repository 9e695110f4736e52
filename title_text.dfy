/**
 * The text transform `format_figure` applies to the title and the source
 * note: every year range `DDDD-DDDD` found by a left-to-right scan gets an
 * en dash instead of its hyphen (`re.sub(r'(\d{4})-(\d{4})', ...)`), then each
 * two-character escape backslash-n becomes a newline (`replace('\\n', '\n')`).
 * Digits are the ASCII digits.
 */
module TitleText {
  import TickLabels

  const EnDash: char := '\U{2013}'

  /** Four digits, a hyphen and four digits start at position p of s. */
  predicate YearRangeAt(s: string, p: int)
  {
    0 <= p && p + 9 <= |s|
    && TickLabels.IsDigitChar(s[p]) && TickLabels.IsDigitChar(s[p + 1]) && TickLabels.IsDigitChar(s[p + 2]) && TickLabels.IsDigitChar(s[p + 3])
    && s[p + 4] == '-'
    && TickLabels.IsDigitChar(s[p + 5]) && TickLabels.IsDigitChar(s[p + 6]) && TickLabels.IsDigitChar(s[p + 7]) && TickLabels.IsDigitChar(s[p + 8])
  }

  /**
   * The starts of the year ranges the regular-expression scan replaces, from
   * position p on: a match consumes its nine characters and the scan resumes
   * after it; a failed attempt moves on by one character.
   */
  function MatchStarts(s: string, p: nat): set<int>
    decreases |s| - p
  {
    if p + 9 > |s| then {}
    else if YearRangeAt(s, p) then {p} + MatchStarts(s, p + 9)
    else MatchStarts(s, p + 1)
  }

  /**
   * What a leftmost, non-overlapping replacement must choose, stated without
   * the scan: only year ranges, no two overlapping, and every year range left
   * out overlaps a chosen one that starts before it.
   */
  ghost predicate LeftmostMatches(s: string, m: set<int>)
  {
    && (forall q :: q in m ==> YearRangeAt(s, q))
    && (forall q, q' :: q in m && q' in m && q < q' ==> q + 9 <= q')
    && (forall p :: YearRangeAt(s, p) && p !in m ==> exists q :: q in m && q < p < q + 9)
  }

  /** s with an en dash at the hyphen of every chosen year range. */
  function WithDashes(s: string, m: set<int>): (r: string)
    ensures |r| == |s|
  {
    seq(|s|, i requires 0 <= i < |s| => if i - 4 in m then EnDash else s[i])
  }

  /** The year-range rewrite. */
  function DashYears(s: string): (r: string)
    ensures |r| == |s|
    ensures forall i :: 0 <= i < |s| && r[i] != s[i] ==> s[i] == '-' && r[i] == EnDash
    ensures exists m :: LeftmostMatches(s, m) && r == WithDashes(s, m)
  {
    MatchStartsLeftmost(s, 0);
    WithDashes(s, MatchStarts(s, 0))
  }

  /** The scan from position p chooses exactly what LeftmostMatches asks for, from p on. */
  lemma {:induction false} MatchStartsLeftmost(s: string, p: nat)
    requires p <= |s|
    ensures forall q :: q in MatchStarts(s, p) ==> p <= q && YearRangeAt(s, q)
    ensures forall q, q' :: q in MatchStarts(s, p) && q' in MatchStarts(s, p) && q < q' ==> q + 9 <= q'
    ensures forall p' :: p <= p' && YearRangeAt(s, p') && p' !in MatchStarts(s, p) ==>
      exists q :: q in MatchStarts(s, p) && q < p' < q + 9
    decreases |s| - p
  {
    var m := MatchStarts(s, p);
    if p + 9 > |s| {
    } else if YearRangeAt(s, p) {
      MatchStartsLeftmost(s, p + 9);
      var rest := MatchStarts(s, p + 9);
      assert m == {p} + rest;
      forall p' | p <= p' && YearRangeAt(s, p') && p' !in m
        ensures exists q :: q in m && q < p' < q + 9
      {
        if p' < p + 9 {
          assert p in m && p < p' < p + 9;
        } else {
          var q :| q in rest && q < p' < q + 9;
          assert q in m;
        }
      }
    } else {
      MatchStartsLeftmost(s, p + 1);
    }
  }

  /** Two choices that both satisfy LeftmostMatches agree below n. */
  lemma {:induction false} LeftmostAgreeBelow(s: string, m1: set<int>, m2: set<int>, n: nat)
    requires LeftmostMatches(s, m1) && LeftmostMatches(s, m2)
    ensures forall q :: 0 <= q < n ==> (q in m1 <==> q in m2)
  {
    if n > 0 {
      LeftmostAgreeBelow(s, m1, m2, n - 1);
      var p := n - 1;
      if p in m1 && p !in m2 {
        assert false;
      }
      if p in m2 && p !in m1 {
        assert false;
      }
    }
  }

  /** LeftmostMatches determines the choice: the rewrite has exactly one result. */
  lemma LeftmostMatchesUnique(s: string, m1: set<int>, m2: set<int>)
    requires LeftmostMatches(s, m1) && LeftmostMatches(s, m2)
    ensures m1 == m2
  {
    LeftmostAgreeBelow(s, m1, m2, |s|);
    forall q | q in m1 ensures q in m2 {
      assert YearRangeAt(s, q);
    }
    forall q | q in m2 ensures q in m1 {
      assert YearRangeAt(s, q);
    }
    assert m1 <= m2 && m2 <= m1;
  }

  /** The rewrite is the one replacement LeftmostMatches describes. */
  lemma DashYearsIsLeftmost(s: string, m: set<int>)
    requires LeftmostMatches(s, m)
    ensures DashYears(s) == WithDashes(s, m)
  {
    var m' :| LeftmostMatches(s, m') && DashYears(s) == WithDashes(s, m');
    LeftmostMatchesUnique(s, m, m');
  }

  /**
   * "1970-2016-2020": the second hyphen sits inside the range the scan
   * already consumed, so only the first becomes a dash; rewriting the result
   * again dashes the second, so the rewrite is not idempotent.
   */
  lemma ChainedRanges()
    ensures DashYears("1970-2016-2020") == "1970\U{2013}2016-2020"
    ensures DashYears(DashYears("1970-2016-2020")) == "1970\U{2013}2016\U{2013}2020"
  {
    var e := "1970-2016-2020";
    assert YearRangeAt(e, 0);
    assert MatchStarts(e, 9) == {};
    assert MatchStarts(e, 0) == {0};
    var d := "1970\U{2013}2016-2020";
    assert WithDashes(e, {0}) == d;
    assert !YearRangeAt(d, 0) && !YearRangeAt(d, 1) && !YearRangeAt(d, 2);
    assert !YearRangeAt(d, 3) && !YearRangeAt(d, 4) && YearRangeAt(d, 5);
    assert MatchStarts(d, 14) == {};
    assert MatchStarts(d, 5) == {5};
    assert MatchStarts(d, 0) == {5};
    assert WithDashes(d, {5}) == "1970\U{2013}2016\U{2013}2020";
  }

  // ---------------------------------------------------------------------------
  // Escaped newlines

  /** `replace('\\n', '\n')`: each backslash-n pair, left to right, becomes a newline. */
  function Unescape(s: string): string
  {
    if |s| == 0 then []
    else if |s| >= 2 && s[0] == '\\' && s[1] == 'n' then ['\n'] + Unescape(s[2..])
    else [s[0]] + Unescape(s[1..])
  }

  /** The inverse direction: each newline written as backslash-n. */
  function Escape(t: string): string
  {
    if |t| == 0 then []
    else if t[0] == '\n' then ['\\', 'n'] + Escape(t[1..])
    else [t[0]] + Escape(t[1..])
  }

  /** No backslash is directly followed by the letter n. */
  predicate NoEscapes(t: string)
  {
    forall i :: 0 <= i < |t| - 1 ==> !(t[i] == '\\' && t[i + 1] == 'n')
  }

  lemma {:induction false} UnescapeHead(s: string)
    requires |s| > 0
    ensures |Unescape(s)| > 0
    ensures Unescape(s)[0] == s[0] || (Unescape(s)[0] == '\n' && s[0] == '\\')
  {
  }

  /** No backslash-n pair is left after unescaping. */
  lemma {:induction false} UnescapeLeavesNoEscapes(s: string)
    ensures NoEscapes(Unescape(s))
    decreases |s|
  {
    if |s| == 0 {
    } else if |s| >= 2 && s[0] == '\\' && s[1] == 'n' {
      UnescapeLeavesNoEscapes(s[2..]);
      var r := Unescape(s[2..]);
      assert Unescape(s) == ['\n'] + r;
    } else {
      UnescapeLeavesNoEscapes(s[1..]);
      var r := Unescape(s[1..]);
      assert Unescape(s) == [s[0]] + r;
      if |s| >= 2 {
        UnescapeHead(s[1..]);
      }
    }
  }

  /** Text without backslash-n pairs is left as it is. */
  lemma {:induction false} UnescapeNoEscapes(t: string)
    requires NoEscapes(t)
    ensures Unescape(t) == t
    decreases |t|
  {
    if |t| > 0 {
      assert NoEscapes(t[1..]);
      UnescapeNoEscapes(t[1..]);
    }
  }

  /** Unescaping twice is the same as unescaping once. */
  lemma {:induction false} UnescapeIdempotent(s: string)
    ensures Unescape(Unescape(s)) == Unescape(s)
  {
    UnescapeLeavesNoEscapes(s);
    UnescapeNoEscapes(Unescape(s));
  }

  lemma {:induction false} EscapeHead(t: string)
    requires |t| > 0
    ensures |Escape(t)| > 0
    ensures Escape(t)[0] == 'n' <==> t[0] == 'n'
  {
  }

  /** Writing newlines as backslash-n and unescaping gives the text back, when it had no backslash-n pair. */
  lemma {:induction false} UnescapeEscape(t: string)
    requires NoEscapes(t)
    ensures Unescape(Escape(t)) == t
    decreases |t|
  {
    if |t| > 0 {
      assert NoEscapes(t[1..]);
      UnescapeEscape(t[1..]);
      var e := Escape(t[1..]);
      if t[0] == '\n' {
        assert Escape(t) == ['\\', 'n'] + e;
        assert Escape(t)[2..] == e;
      } else {
        assert Escape(t) == [t[0]] + e;
        assert Escape(t)[1..] == e;
        if t[0] == '\\' && |t| > 1 {
          EscapeHead(t[1..]);
        }
      }
    }
  }

  /** The transform applied to the title and to the source note. */
  function Display(s: string): (r: string)
    ensures |s| > 0 ==> |r| > 0
  {
    var d := DashYears(s);
    if |d| > 0 then UnescapeHead(d); Unescape(d) else Unescape(d)
  }
}
