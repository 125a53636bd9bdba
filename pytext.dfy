/**
 * The Python string primitives the report renderer relies on:
 * `str.isspace`, `str.strip`, `str.splitlines` and `str.join`.
 */
module PyText {

  /** Python's `str.isspace()` on one code point (the characters `str.strip()` removes). */
  predicate IsSpace(c: char) {
    ('\t' <= c <= '\r') || ('\U{1C}' <= c <= ' ') || c == '\U{85}' || c == '\U{A0}'
    || c == '\U{1680}' || ('\U{2000}' <= c <= '\U{200A}') || c == '\U{2028}'
    || c == '\U{2029}' || c == '\U{202F}' || c == '\U{205F}' || c == '\U{3000}'
  }

  /** The code points at which Python's `str.splitlines()` ends a line. */
  predicate IsLineBreak(c: char) {
    c == '\n' || c == '\r' || c == '\U{0B}' || c == '\U{0C}' || c == '\U{1C}' || c == '\U{1D}'
    || c == '\U{1E}' || c == '\U{85}' || c == '\U{2028}' || c == '\U{2029}'
  }

  /** Every character of `s` is whitespace (vacuously true of ""). */
  predicate AllSpace(s: string) {
    forall k :: 0 <= k < |s| ==> IsSpace(s[k])
  }

  /** `s` has no leading and no trailing whitespace. */
  predicate IsStripped(s: string) {
    s == [] || (!IsSpace(s[0]) && !IsSpace(s[|s| - 1]))
  }

  predicate NoLineBreak(s: string) {
    forall k :: 0 <= k < |s| ==> !IsLineBreak(s[k])
  }

  /** Drops leading whitespace. */
  function TrimStart(s: string): (r: string)
    ensures r == [] || !IsSpace(r[0])
    ensures r == [] <==> AllSpace(s)
    ensures |r| <= |s|
  {
    if s != [] && IsSpace(s[0]) then TrimStart(s[1..]) else s
  }

  /** Drops trailing whitespace. */
  function TrimEnd(s: string): (r: string)
    ensures r == [] || !IsSpace(r[|r| - 1])
    ensures r == [] <==> AllSpace(s)
    ensures |r| <= |s| && (r != [] ==> r[0] == s[0])
  {
    if s != [] && IsSpace(s[|s| - 1]) then TrimEnd(s[..|s| - 1]) else s
  }

  /**
   * Python's `s.strip()`: the part of `s` between its leading and its
   * trailing whitespace. It is empty exactly when `s` is blank, and it
   * leaves an already stripped string alone.
   */
  function Strip(s: string): (r: string)
    ensures IsStripped(r)
    ensures r == [] <==> AllSpace(s)
    ensures IsStripped(s) ==> r == s
    ensures |r| <= |s|
  {
    var t := TrimStart(s);
    assert AllSpace(t) ==> t == [] by {
      if t != [] { assert !IsSpace(t[0]); }
    }
    TrimEnd(t)
  }

  lemma {:induction false} TrimStartIsSuffix(s: string)
    ensures var r := TrimStart(s); r == s[|s| - |r|..] && AllSpace(s[..|s| - |r|])
  {
    if s != [] && IsSpace(s[0]) {
      TrimStartIsSuffix(s[1..]);
      var r := TrimStart(s[1..]);
      assert s[1..][..|s| - 1 - |r|] == s[1..|s| - |r|];
    }
  }

  lemma {:induction false} TrimEndIsPrefix(s: string)
    ensures var r := TrimEnd(s); r == s[..|r|] && AllSpace(s[|r|..])
  {
    if s != [] && IsSpace(s[|s| - 1]) {
      var init := s[..|s| - 1];
      TrimEndIsPrefix(init);
      var r := TrimEnd(init);
      assert TrimEnd(s) == r;
      assert init[..|r|] == s[..|r|];
      assert s[|r|..] == init[|r|..] + [s[|s| - 1]];
    }
  }

  /** `Strip(s)` is the slice of `s` left once a blank prefix and a blank suffix are cut off. */
  lemma StripIsSlice(s: string)
    ensures exists i, j :: 0 <= i <= j <= |s| && Strip(s) == s[i..j] && AllSpace(s[..i]) && AllSpace(s[j..])
  {
    var t := TrimStart(s);
    TrimStartIsSuffix(s);
    TrimEndIsPrefix(t);
    var i := |s| - |t|;
    var j := i + |TrimEnd(t)|;
    var r := TrimEnd(t);
    assert t == s[i..];
    assert Strip(s) == r;
    assert r == t[..|r|];
    assert t[..|r|] == s[i..j];
    assert t[|r|..] == s[j..];
  }

  /** The first index at or after `k` that holds a line break, or |s| when there is none. */
  function LineEnd(s: string, k: nat): (i: nat)
    requires k <= |s|
    ensures k <= i <= |s|
    ensures i < |s| ==> IsLineBreak(s[i])
    ensures forall m :: k <= m < i ==> !IsLineBreak(s[m])
    decreases |s| - k
  {
    if k == |s| || IsLineBreak(s[k]) then k else LineEnd(s, k + 1)
  }

  /** Where the next line starts after the break at `i`: `\r\n` is one break. */
  function BreakEnd(s: string, i: nat): (j: nat)
    requires i < |s|
    ensures i < j <= |s| && j <= i + 2
  {
    if s[i] == '\r' && i + 1 < |s| && s[i + 1] == '\n' then i + 2 else i + 1
  }

  /**
   * Python's `s.splitlines()`: the lines of `s` without their line
   * breaks, `\r\n` counting as one break. A final line break does not start
   * an extra empty line, and "" has no lines at all.
   */
  function SplitLines(s: string): (lines: seq<string>)
    ensures lines == [] <==> s == []
    decreases |s|
  {
    if s == [] then []
    else
      var i := LineEnd(s, 0);
      if i == |s| then [s]
      else
        var j := BreakEnd(s, i);
        [s[..i]] + SplitLines(s[j..])
  }

  /** `s` with every line break removed. */
  function RemoveBreaks(s: string): string {
    if s == [] then []
    else (if IsLineBreak(s[0]) then [] else [s[0]]) + RemoveBreaks(s[1..])
  }

  /** The strings of `ss` one after another (Python's `''.join(ss)`). */
  function Concat(ss: seq<string>): string {
    if ss == [] then [] else ss[0] + Concat(ss[1..])
  }

  /** Python's `sep.join(ss)`. */
  function Join(ss: seq<string>, sep: string): string {
    if ss == [] then []
    else if |ss| == 1 then ss[0]
    else ss[0] + sep + Join(ss[1..], sep)
  }

  lemma {:induction false} RemoveBreaksAppend(a: string, b: string)
    ensures RemoveBreaks(a + b) == RemoveBreaks(a) + RemoveBreaks(b)
    decreases |a|
  {
    if a != [] {
      assert (a + b)[1..] == a[1..] + b;
      RemoveBreaksAppend(a[1..], b);
    } else {
      assert a + b == b;
    }
  }

  lemma {:induction false} RemoveBreaksKeeps(s: string)
    requires NoLineBreak(s)
    ensures RemoveBreaks(s) == s
    decreases |s|
  {
    if s != [] { RemoveBreaksKeeps(s[1..]); }
  }

  /** One break, or the two characters of `\r\n`, vanish. */
  lemma BreakRunRemoved(b: string)
    requires |b| == 1 || |b| == 2
    requires IsLineBreak(b[0]) && IsLineBreak(b[|b| - 1])
    ensures RemoveBreaks(b) == []
  {
    if |b| == 2 {
      assert b[1..][1..] == [];
    }
  }

  /** Removing the breaks of `s` keeps its first line and drops the break that ends it. */
  lemma SplitAtBreak(s: string, i: nat, j: nat)
    requires i < j <= |s| && j <= i + 2
    requires NoLineBreak(s[..i])
    requires IsLineBreak(s[i]) && IsLineBreak(s[j - 1])
    ensures RemoveBreaks(s) == s[..i] + RemoveBreaks(s[j..])
  {
    var a, b, c := s[..i], s[i..j], s[j..];
    assert s == (a + b) + c;
    RemoveBreaksAppend(a + b, c);
    RemoveBreaksAppend(a, b);
    RemoveBreaksKeeps(a);
    assert b[0] == s[i] && b[|b| - 1] == s[j - 1];
    BreakRunRemoved(b);
  }

  /**
   * Splitting into lines loses the line breaks and nothing else: the lines
   * put back together are `s` without its breaks.
   */
  lemma {:induction false} SplitLinesLosesOnlyBreaks(s: string)
    ensures Concat(SplitLines(s)) == RemoveBreaks(s)
    decreases |s|
  {
    if s != [] {
      var i := LineEnd(s, 0);
      assert NoLineBreak(s[..i]) by {
        forall m | 0 <= m < i ensures !IsLineBreak(s[..i][m]) {
          assert s[..i][m] == s[m];
        }
      }
      if i == |s| {
        assert s[..i] == s;
        RemoveBreaksKeeps(s);
      } else {
        var j := BreakEnd(s, i);
        SplitAtBreak(s, i, j);
        SplitLinesLosesOnlyBreaks(s[j..]);
      }
    }
  }

  /** No line contains a line break. */
  lemma {:induction false} SplitLinesHaveNoBreaks(s: string)
    ensures forall l :: l in SplitLines(s) ==> NoLineBreak(l)
    decreases |s|
  {
    if s != [] {
      var i := LineEnd(s, 0);
      assert NoLineBreak(s[..i]) by {
        forall m | 0 <= m < i ensures !IsLineBreak(s[..i][m]) {
          assert s[..i][m] == s[m];
        }
      }
      if i < |s| {
        var j := BreakEnd(s, i);
        SplitLinesHaveNoBreaks(s[j..]);
      } else {
        assert s[..i] == s;
      }
    }
  }

  /** `s` with each line break, `\r\n` counted as one, written as `\n`. */
  function NormalizeBreaks(s: string): string
    decreases |s|
  {
    if s == [] then []
    else if s[0] == '\r' && |s| >= 2 && s[1] == '\n' then "\n" + NormalizeBreaks(s[2..])
    else if IsLineBreak(s[0]) then "\n" + NormalizeBreaks(s[1..])
    else [s[0]] + NormalizeBreaks(s[1..])
  }

  predicate EndsInBreak(s: string) {
    s != [] && IsLineBreak(s[|s| - 1])
  }

  /** A prefix without breaks passes through `NormalizeBreaks` unchanged. */
  lemma {:induction false} NormalizeBreaksSkip(s: string, i: nat)
    requires i <= |s| && NoLineBreak(s[..i])
    ensures NormalizeBreaks(s) == s[..i] + NormalizeBreaks(s[i..])
  {
    if i > 0 {
      assert !IsLineBreak(s[..i][0]);
      var t := s[1..];
      assert t[..i - 1] == s[..i][1..];
      assert t[i - 1..] == s[i..];
      NormalizeBreaksSkip(t, i - 1);
      assert s[..i] == [s[0]] + t[..i - 1];
    }
  }

  /** At a break, `NormalizeBreaks` writes one `\n` and goes on after the break. */
  lemma NormalizeAtBreak(s: string, i: nat)
    requires i < |s| && IsLineBreak(s[i])
    ensures NormalizeBreaks(s[i..]) == "\n" + NormalizeBreaks(s[BreakEnd(s, i)..])
  {
    var t := s[i..];
    assert t[0] == s[i];
    if BreakEnd(s, i) == i + 2 {
      assert t[1] == s[i + 1] && t[2..] == s[i + 2..];
    } else {
      assert t[1..] == s[i + 1..];
    }
  }

  /** The first line of `s`, up to `LineEnd(s, 0)`, passes through `NormalizeBreaks` unchanged. */
  lemma NormalizeKeepsFirstLine(s: string)
    ensures NormalizeBreaks(s) == s[..LineEnd(s, 0)] + NormalizeBreaks(s[LineEnd(s, 0)..])
  {
    var i := LineEnd(s, 0);
    forall m | 0 <= m < i ensures !IsLineBreak(s[..i][m]) {
      assert s[..i][m] == s[m];
    }
    NormalizeBreaksSkip(s, i);
  }

  /** `NormalizeBreaks` keeps the first line of `s` and writes its break as `\n`. */
  lemma NormalizeFirstLine(s: string)
    requires s != [] && LineEnd(s, 0) < |s|
    ensures var i := LineEnd(s, 0);
      NormalizeBreaks(s) == s[..i] + "\n" + NormalizeBreaks(s[BreakEnd(s, i)..])
  {
    var i := LineEnd(s, 0);
    NormalizeKeepsFirstLine(s);
    NormalizeAtBreak(s, i);
  }

  /**
   * `splitlines` is undone by joining with `\n`: the lines joined, plus a
   * `\n` when the text ends in a break, are the text with every break
   * (`\r\n` as one) written as `\n`. Together with `SplitLinesHaveNoBreaks`
   * this fixes every line boundary.
   */
  lemma {:induction false} SplitLinesJoin(s: string)
    ensures Join(SplitLines(s), "\n") + (if EndsInBreak(s) then "\n" else "") == NormalizeBreaks(s)
    decreases |s|
  {
    if s != [] {
      var i := LineEnd(s, 0);
      if i == |s| {
        NormalizeLastLine(s);
      } else {
        var rest := s[BreakEnd(s, i)..];
        NormalizeFirstLine(s);
        SplitLinesJoin(rest);
        if rest == [] {
          assert SplitLines(s) == [s[..i]];
          assert EndsInBreak(s) by { assert BreakEnd(s, i) == |s|; }
        } else {
          JoinCons(s[..i], SplitLines(rest), "\n");
          assert EndsInBreak(s) == EndsInBreak(rest) by {
            assert rest[|rest| - 1] == s[|s| - 1];
          }
        }
      }
    }
  }

  /** A text with no break is one line, passed through unchanged. */
  lemma NormalizeLastLine(s: string)
    requires s != [] && LineEnd(s, 0) == |s|
    ensures NormalizeBreaks(s) == s && !EndsInBreak(s) && SplitLines(s) == [s]
  {
    NormalizeKeepsFirstLine(s);
    assert s[..|s|] == s && s[|s|..] == [];
  }

  lemma JoinCons(a: string, rest: seq<string>, sep: string)
    requires rest != []
    ensures Join([a] + rest, sep) == a + sep + Join(rest, sep)
  {
    assert ([a] + rest)[1..] == rest;
  }

  /** `"a\r\nb"` is two lines, a final break adds none, and `\n\r\n` leaves one empty line between. */
  lemma SplitLinesExamples()
    ensures SplitLines("a\r\nb") == ["a", "b"]
    ensures SplitLines("a\n") == ["a"]
    ensures SplitLines("a\n\r\nb") == ["a", "", "b"]
  {
    var b := "b";
    assert LineEnd(b, 0) == 1 by { assert LineEnd(b, 1) == 1; }
    assert SplitLines(b) == [b];
    var s1 := "a\r\nb";
    assert LineEnd(s1, 0) == 1 by { assert IsLineBreak(s1[1]); }
    assert BreakEnd(s1, 1) == 3 && s1[3..] == b && s1[..1] == "a";
    assert SplitLines(s1) == ["a"] + SplitLines(b);
    var s2 := "a\n";
    assert LineEnd(s2, 0) == 1 by { assert IsLineBreak(s2[1]); }
    assert BreakEnd(s2, 1) == 2 && s2[2..] == [] && s2[..1] == "a";
    assert SplitLines(s2) == ["a"] + SplitLines([]);
    var s3 := "\r\nb";
    assert LineEnd(s3, 0) == 0 && BreakEnd(s3, 0) == 2 && s3[2..] == b && s3[..0] == "";
    assert SplitLines(s3) == [""] + SplitLines(b);
    var s4 := "a\n\r\nb";
    assert LineEnd(s4, 0) == 1 by { assert IsLineBreak(s4[1]); }
    assert BreakEnd(s4, 1) == 2 && s4[2..] == s3 && s4[..1] == "a";
    assert SplitLines(s4) == ["a"] + SplitLines(s3);
  }

  /**
   * A non-blank string that starts with a non-blank stripped prefix
   * keeps that prefix through `Strip`.
   */
  lemma {:induction false} StripKeepsPrefix(pre: string, s: string)
    requires pre != [] && IsStripped(pre) && pre <= s
    ensures pre <= Strip(s)
  {
    assert TrimStart(s) == s;
    TrimEndKeepsPrefix(pre, s);
  }

  lemma {:induction false} TrimEndKeepsPrefix(pre: string, s: string)
    requires pre != [] && IsStripped(pre) && pre <= s
    ensures pre <= TrimEnd(s)
    decreases |s|
  {
    if |pre| == |s| {
      assert pre == s;
    } else if IsSpace(s[|s| - 1]) {
      assert pre <= s[..|s| - 1];
      TrimEndKeepsPrefix(pre, s[..|s| - 1]);
    }
  }
}
