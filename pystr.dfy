/** The pieces of Python's `str` that the manager relies on: `None` for an
    omitted argument, truthiness of an optional string, `str.splitlines()`
    (used to count the job ids squeue prints) and the substring test
    `needle in hay` (used by the availability probe). */
module PyStr {

  /** An argument that may be Python's `None`. */
  datatype Option<T> = None | Some(value: T)

  /** `if s:` on an optional string: `None` and `""` are the only false
      values. */
  predicate IsTruthy(s: Option<string>): (truthy: bool)
    ensures truthy <==> s != None && s != Some("")
  {
    s.Some? && s.value != ""
  }

  // ---------------------------------------------------------------------
  // str.splitlines()
  // ---------------------------------------------------------------------

  /** The code points `str.splitlines()` treats as line boundaries:
      \n, \r, \v, \f, \x1c, \x1d, \x1e, \x85, U+2028 and U+2029. */
  predicate IsLineBreak(c: char) {
    c == '\n' || c == '\r' || c == '\U{B}' || c == '\U{C}' ||
    c == '\U{1C}' || c == '\U{1D}' || c == '\U{1E}' || c == '\U{85}' ||
    c == '\U{2028}' || c == '\U{2029}'
  }

  predicate NoBreaks(s: string) {
    forall i :: 0 <= i < |s| ==> !IsLineBreak(s[i])
  }

  /** Printable ASCII text holds no line boundary. */
  lemma PrintableHasNoBreaks(s: string)
    requires forall i :: 0 <= i < |s| ==> ' ' <= s[i] <= '~'
    ensures NoBreaks(s)
  {
  }

  /** Index of the first line boundary in `s`, or `|s|` if there is none. */
  function FirstBreak(s: string): (k: nat)
    ensures k <= |s|
    ensures NoBreaks(s[..k])
    ensures k == |s| ==> NoBreaks(s)
    ensures k < |s| ==> IsLineBreak(s[k])
  {
    if |s| == 0 || IsLineBreak(s[0]) then 0
    else
      var k' := FirstBreak(s[1..]);
      assert s[..k' + 1] == [s[0]] + s[1..][..k'];
      1 + k'
  }

  /** Length of the terminator that starts at `s[k]`: a "\r\n" pair is one
      terminator of length 2, every other boundary has length 1. */
  function TerminatorLength(s: string, k: nat): nat
    requires k < |s|
  {
    if s[k] == '\r' && k + 1 < |s| && s[k + 1] == '\n' then 2 else 1
  }

  /** `s.splitlines()`: the lines of `s` without their terminators; a final
      terminator does not start another line, and "" has no lines. */
  function SplitLines(s: string): (lines: seq<string>)
    ensures forall i :: 0 <= i < |lines| ==> NoBreaks(lines[i])
    ensures |lines| <= |s|
    ensures lines == [] <==> s == []
    decreases |s|
  {
    if |s| == 0 then []
    else
      var k := FirstBreak(s);
      if k == |s| then [s] else [s[..k]] + SplitLines(s[k + TerminatorLength(s, k)..])
  }

  /** Reference count, scanning left to right: the number of line
      terminators in `s`, a "\r\n" pair counting once. */
  function TerminatorCount(s: string): nat
    decreases |s|
  {
    if |s| == 0 then 0
    else if s[0] == '\r' && |s| > 1 && s[1] == '\n' then 1 + TerminatorCount(s[2..])
    else (if IsLineBreak(s[0]) then 1 else 0) + TerminatorCount(s[1..])
  }

  /** `s` has a last line with no terminator after it. */
  predicate EndsUnterminated(s: string) {
    s != [] && !IsLineBreak(s[|s| - 1])
  }

  lemma {:induction false} FirstBreakAt(s: string, k: nat)
    requires k <= |s| && NoBreaks(s[..k])
    requires k < |s| ==> IsLineBreak(s[k])
    ensures FirstBreak(s) == k
    decreases k
  {
    if k > 0 {
      assert s[..k][0] == s[0];
      assert s[1..][..k - 1] == s[..k][1..];
      FirstBreakAt(s[1..], k - 1);
    }
  }

  lemma {:induction false} TerminatorCountSkip(s: string, k: nat)
    requires k <= |s| && NoBreaks(s[..k])
    ensures TerminatorCount(s) == TerminatorCount(s[k..])
    decreases k
  {
    if k > 0 {
      assert s[..k][0] == s[0];
      assert s[1..][..k - 1] == s[..k][1..];
      assert s[1..][k - 1..] == s[k..];
      TerminatorCountSkip(s[1..], k - 1);
    }
  }

  /** The number of lines `splitlines` yields is the number of terminators,
      plus one for a last line that has none. So "" gives 0, "a\n\nb"
      gives 3, and a terminator at the end adds no line. */
  lemma {:induction false} LineCount(s: string)
    ensures |SplitLines(s)| == TerminatorCount(s) + (if EndsUnterminated(s) then 1 else 0)
    decreases |s|
  {
    if s != [] {
      var k := FirstBreak(s);
      if k < |s| {
        var e := k + TerminatorLength(s, k);
        assert |SplitLines(s)| == 1 + |SplitLines(s[e..])|;
        assert TerminatorCount(s) == 1 + TerminatorCount(s[e..]) by {
          TerminatorCountSkip(s, k);
          TerminatorCountAtBreak(s, k);
        }
        assert EndsUnterminated(s) == EndsUnterminated(s[e..]) by {
          if e < |s| {
            assert s[e..][|s[e..]| - 1] == s[|s| - 1];
          }
        }
        LineCount(s[e..]);
      } else {
        assert TerminatorCount(s) == 0 by {
          TerminatorCountSkip(s, k);
          assert s[k..] == [];
        }
      }
    }
  }

  /** A terminator counts once and is skipped whole. */
  lemma TerminatorCountAtBreak(s: string, k: nat)
    requires k < |s| && IsLineBreak(s[k])
    ensures TerminatorCount(s[k..]) == 1 + TerminatorCount(s[k + TerminatorLength(s, k)..])
  {
    var rest := s[k..];
    assert rest[0] == s[k];
    if TerminatorLength(s, k) == 2 {
      assert rest[1] == s[k + 1];
      assert rest[2..] == s[k + 2..];
    } else {
      assert rest[1..] == s[k + 1..];
    }
  }

  /** The first line of `a + b` is the first line of `a` when `a` holds a
      terminator, and the rest follows its terminator. */
  lemma SplitLinesHead(a: string, b: string) returns (e: nat)
    requires a != [] && a[|a| - 1] == '\n'
    ensures 0 < e <= |a|
    ensures SplitLines(a) == [a[..FirstBreak(a)]] + SplitLines(a[e..])
    ensures SplitLines(a + b) == [a[..FirstBreak(a)]] + SplitLines(a[e..] + b)
  {
    var k := FirstBreak(a);
    assert k < |a| by {
      assert IsLineBreak(a[|a| - 1]);
    }
    e := k + TerminatorLength(a, k);
    SplitLinesAt(a, k, e);
    SplitLinesFirstOfAppend(a, b, k);
  }

  lemma TakeOfAppend<T>(a: seq<T>, b: seq<T>, k: nat)
    requires k <= |a|
    ensures (a + b)[..k] == a[..k]
  {
    forall i | 0 <= i < k
      ensures (a + b)[..k][i] == a[..k][i]
    {
      assert (a + b)[i] == a[i];
    }
  }

  lemma DropOfAppend<T>(a: seq<T>, b: seq<T>, e: nat)
    requires e <= |a|
    ensures (a + b)[e..] == a[e..] + b
  {
    forall i | 0 <= i < |a| + |b| - e
      ensures (a + b)[e..][i] == (a[e..] + b)[i]
    {
      if i < |a| - e {
        assert (a + b)[e + i] == a[e + i];
      } else {
        assert (a + b)[e + i] == b[e + i - |a|];
      }
    }
  }

  /** Appending after a complete line: the lines of `a + b` are those of
      `a` followed by those of `b` when `a` ends with "\n". */
  lemma {:induction false} SplitLinesAppend(a: string, b: string)
    requires a != [] && a[|a| - 1] == '\n'
    ensures SplitLines(a + b) == SplitLines(a) + SplitLines(b)
    decreases |a|
  {
    var e := SplitLinesHead(a, b);
    var h := a[..FirstBreak(a)];
    var rest := a[e..];
    if e < |a| {
      assert SplitLines(rest + b) == SplitLines(rest) + SplitLines(b) by {
        assert rest[|rest| - 1] == '\n';
        SplitLinesAppend(rest, b);
      }
      ConcatAssoc([h], SplitLines(rest), SplitLines(b));
    } else {
      assert rest + b == b && SplitLines(rest) == [] by {
        assert |rest| == 0;
      }
      assert [h] + [] == [h];
    }
  }

  lemma PrependFour<T>(a: T, b: T, c: T, d: T, x: seq<T>)
    ensures [a] + ([b] + ([c] + ([d] + x))) == [a, b, c, d] + x
  {}

  lemma PrependFive<T>(a: T, b: T, c: T, d: T, e: T, x: seq<T>)
    ensures [a] + ([b] + ([c] + ([d] + ([e] + x)))) == [a, b, c, d, e] + x
  {}

  lemma PrependTwoAppend<T>(a: T, b: T, x: seq<T>, c: T)
    ensures [a] + ([b] + (x + [c])) == [a, b] + x + [c]
  {}

  lemma ConcatAssoc<T>(x: seq<T>, y: seq<T>, z: seq<T>)
    ensures x + (y + z) == (x + y) + z
  {}

  /** One line without a boundary in it, followed by "\n", is one line. */
  lemma SplitOneLine(x: string)
    requires NoBreaks(x)
    ensures SplitLines(x + "\n") == [x]
  {
    var s := x + "\n";
    assert s[..|x|] == x;
    FirstBreakAt(s, |x|);
    assert s[|x| + 1..] == [];
  }

  /** A line without a boundary in it and its "\n" come off the front of
      the text as its first line. */
  lemma SplitLinesCons(x: string, rest: string)
    requires NoBreaks(x)
    ensures SplitLines(x + "\n" + rest) == [x] + SplitLines(rest)
  {
    var line := x + "\n";
    assert line[|line| - 1] == '\n';
    SplitLinesAppend(line, rest);
    SplitOneLine(x);
  }

  /** Any boundary after an unterminated last line adds no line and changes
      none; so does a "\n" after a final lone "\r", which it joins into one
      "\r\n" terminator. */
  lemma {:induction false} TrailingBreak(s: string, c: char)
    requires s != [] && IsLineBreak(c)
    requires !IsLineBreak(s[|s| - 1]) || (s[|s| - 1] == '\r' && c == '\n')
    ensures SplitLines(s + [c]) == SplitLines(s)
    decreases |s|
  {
    var k := FirstBreak(s);
    if k == |s| {
      TrailingBreakOneLine(s, c);
    } else if k == |s| - 1 {
      TrailingNewlineAfterCr(s);
    } else {
      var e := k + TerminatorLength(s, k);
      assert e < |s| by {
        assert s[|s| - 1] != '\n';
      }
      var u := s[e..];
      SplitLinesFirstOfAppend(s, [c], k);
      assert SplitLines(s) == [s[..k]] + SplitLines(u) by {
        SplitLinesAt(s, k, e);
      }
      assert SplitLines(u + [c]) == SplitLines(u) by {
        assert u[|u| - 1] == s[|s| - 1];
        TrailingBreak(u, c);
      }
    }
  }

  /** The first line of `a + b` is that of `a` when `a` holds a boundary
      that `b` cannot extend: a "\r" at the very end of `a` could join a
      "\n" at the start of `b`. */
  lemma SplitLinesFirstOfAppend(a: string, b: string, k: nat)
    requires k == FirstBreak(a) && k < |a| && (k < |a| - 1 || a[k] != '\r')
    ensures SplitLines(a + b) == [a[..k]] + SplitLines(a[k + TerminatorLength(a, k)..] + b)
  {
    var e := k + TerminatorLength(a, k);
    assert e <= |a|;
    BreakOfAppend(a, b, k);
    calc {
      SplitLines(a + b);
    == { SplitLinesAt(a + b, k, e); }
      [(a + b)[..k]] + SplitLines((a + b)[e..]);
    == { TakeOfAppend(a, b, k); DropOfAppend(a, b, e); }
      [a[..k]] + SplitLines(a[e..] + b);
    }
  }

  lemma BreakOfAppend(a: string, b: string, k: nat)
    requires k == FirstBreak(a) && k < |a| && (k < |a| - 1 || a[k] != '\r')
    ensures FirstBreak(a + b) == k
    ensures TerminatorLength(a + b, k) == TerminatorLength(a, k)
  {
    TakeOfAppend(a, b, k);
    FirstBreakAt(a + b, k);
    assert (a + b)[k] == a[k];
    if k < |a| - 1 {
      assert (a + b)[k + 1] == a[k + 1];
    }
  }

  /** A text without boundaries followed by one boundary is that one line. */
  lemma TrailingBreakOneLine(s: string, c: char)
    requires s != [] && FirstBreak(s) == |s| && IsLineBreak(c)
    ensures SplitLines(s + [c]) == SplitLines(s)
  {
    var t := s + [c];
    var k := |s|;
    TakeOfAppend(s, [c], k);
    FirstBreakAt(t, k);
    SplitLinesAt(t, k, k + 1);
    assert t[k + 1..] == [];
    assert s[..k] == s;
  }

  /** A "\n" after a final lone "\r" joins it into one "\r\n" terminator. */
  lemma TrailingNewlineAfterCr(s: string)
    requires s != [] && FirstBreak(s) == |s| - 1 && s[|s| - 1] == '\r'
    ensures SplitLines(s + "\n") == SplitLines(s)
  {
    var t := s + "\n";
    var k := |s| - 1;
    TakeOfAppend(s, "\n", k);
    FirstBreakAt(t, k);
    SplitLinesAt(t, k, k + 2);
    SplitLinesAt(s, k, k + 1);
    assert t[k + 2..] == [];
    assert s[k + 1..] == [];
  }

  /** One step of `splitlines`: the first line ends at the first boundary. */
  lemma SplitLinesAt(s: string, k: nat, e: nat)
    requires k < |s| && k == FirstBreak(s) && e == k + TerminatorLength(s, k)
    ensures SplitLines(s) == [s[..k]] + SplitLines(s[e..])
  {
  }

  /** The text a program prints when it writes each item followed by "\n". */
  function Terminated(items: seq<string>): string
    decreases |items|
  {
    if items == [] then "" else items[0] + "\n" + Terminated(items[1..])
  }

  /** Printing one item per line and splitting the text gives the items
      back, empty items included. */
  lemma {:induction false} SplitTerminated(items: seq<string>)
    requires forall i :: 0 <= i < |items| ==> NoBreaks(items[i])
    ensures SplitLines(Terminated(items)) == items
    decreases |items|
  {
    if items != [] {
      SplitLinesCons(items[0], Terminated(items[1..]));
      SplitTerminated(items[1..]);
      assert [items[0]] + items[1..] == items;
    }
  }

  /** Worked case: three ids each ended by "\n" give three lines; the
      final terminator starts no fourth one. */
  lemma SplitThreeIds()
    ensures SplitLines("123\n456\n789\n") == ["123", "456", "789"]
  {
    DigitsHaveNoBreaks();
    var s3 := "789" + "\n" + "";
    var s2 := "456" + "\n" + s3;
    var s1 := "123" + "\n" + s2;
    assert s1 == "123\n456\n789\n";
    SplitLinesCons("789", "");
    SplitLinesCons("456", s3);
    SplitLinesCons("123", s2);
  }

  lemma DigitsHaveNoBreaks()
    ensures NoBreaks("123") && NoBreaks("456") && NoBreaks("789")
  {
  }

  /** Worked case: an empty line between two others is a line. */
  lemma SplitWithEmptyLine()
    ensures SplitLines("a\n\nb") == ["a", "", "b"]
  {
    assert NoBreaks("a") && NoBreaks("") && NoBreaks("b");
    var s2 := "" + "\n" + "b";
    assert "a\n\nb" == "a" + "\n" + s2;
    FirstBreakAt("b", 1);
    assert SplitLines("b") == ["b"];
    SplitLinesCons("", "b");
    SplitLinesCons("a", s2);
  }

  // ---------------------------------------------------------------------
  // needle in hay
  // ---------------------------------------------------------------------

  /** `needle` occurs in `hay` starting at index `i`. */
  predicate OccursAt(needle: string, hay: string, i: int) {
    0 <= i && i + |needle| <= |hay| && hay[i..i + |needle|] == needle
  }

  /** `needle in hay` for Python strings; the empty string occurs in every
      string. */
  function Contains(hay: string, needle: string): (found: bool)
    ensures |needle| == 0 ==> found
    ensures found ==> |needle| <= |hay|
    decreases |hay|
  {
    if |hay| < |needle| then false
    else if hay[..|needle|] == needle then true
    else Contains(hay[1..], needle)
  }

  lemma {:induction false} ContainsIffOccurs(hay: string, needle: string)
    ensures Contains(hay, needle) <==> exists i :: OccursAt(needle, hay, i)
    decreases |hay|
  {
    var n := |needle|;
    if |hay| < n {
    } else if hay[..n] == needle {
      assert OccursAt(needle, hay, 0);
    } else {
      ContainsIffOccurs(hay[1..], needle);
      forall i | OccursAt(needle, hay, i)
        ensures 1 <= i && OccursAt(needle, hay[1..], i - 1)
      {
        ShiftedSlice(hay, i, n);
      }
      forall j | OccursAt(needle, hay[1..], j)
        ensures OccursAt(needle, hay, j + 1)
      {
        ShiftedSlice(hay, j + 1, n);
      }
    }
  }

  lemma ShiftedSlice(hay: string, i: int, n: nat)
    requires 1 <= i && i + n <= |hay|
    ensures hay[1..][i - 1..i - 1 + n] == hay[i..i + n]
  {}
}
