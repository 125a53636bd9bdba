/**
 * `parse_ai_summary`: splits an AI-written summary into bullet items and
 * plain paragraphs.
 */
module Summary {
  import opened Wrappers
  import opened PyText
  import Numbers

  /** Python's slice `s[i:j]` for non-negative bounds: clamped to the string. */
  function Slice(s: string, i: nat, j: nat): (r: string)
    ensures |r| == if i <= j && i <= |s| then (if j <= |s| then j else |s|) - i else 0
  {
    var hi := if j <= |s| then j else |s|;
    if i <= hi then s[i..hi] else []
  }

  /** Python's `s.isdigit()`: non-empty and every character a digit. */
  predicate PyIsDigit(s: string) {
    s != [] && Numbers.AllDigits(s)
  }

  /** `line.startswith(('- ', '* '))`. */
  predicate IsDashBullet(line: string) {
    |line| >= 2 && (line[0] == '-' || line[0] == '*') && line[1] == ' '
  }

  /** `line[:2].isdigit() and line[2:3] in {'.', ')'}`. */
  predicate IsNumberedBullet(line: string) {
    PyIsDigit(Slice(line, 0, 2)) && (Slice(line, 2, 3) == "." || Slice(line, 2, 3) == ")")
  }

  predicate IsBulletLine(line: string) {
    IsDashBullet(line) || IsNumberedBullet(line)
  }

  /** The text of a bullet line once its marker is removed. */
  function BulletText(line: string): string
    requires IsBulletLine(line)
  {
    if IsDashBullet(line) then Strip(line[2..]) else Strip(line[3..])
  }

  /** `[line.strip()]` when that is non-empty, else nothing. */
  function Kept(line: string): seq<string> {
    if Strip(line) == [] then [] else [Strip(line)]
  }

  /** The stripped non-blank lines of `lines`, in order. */
  function NonBlank(lines: seq<string>): seq<string> {
    if lines == [] then []
    else Kept(lines[0]) + NonBlank(lines[1..])
  }

  /** The lines the classifier sees: none for a missing or empty summary. */
  function SummaryLines(summary: Option<string>): seq<string> {
    match summary
    case None => []
    case Some(s) => if s == [] then [] else NonBlank(SplitLines(s))
  }

  /** The bullet items of `lines`, in order. */
  function BulletsOf(lines: seq<string>): seq<string> {
    if lines == [] then []
    else (if IsBulletLine(lines[0]) then [BulletText(lines[0])] else []) + BulletsOf(lines[1..])
  }

  /** The lines of `lines` that are not bullets, in order. */
  function ParagraphsOf(lines: seq<string>): seq<string> {
    if lines == [] then []
    else (if IsBulletLine(lines[0]) then [] else [lines[0]]) + ParagraphsOf(lines[1..])
  }

  /** What `parse_ai_summary(summary)` returns: `(bullets, paragraphs)`. */
  function Parse(summary: Option<string>): (seq<string>, seq<string>) {
    var lines := SummaryLines(summary);
    (BulletsOf(lines), ParagraphsOf(lines))
  }

  /**
   * `parse_ai_summary` as the source runs it: one pass over the non-blank
   * lines, appending each to the bullets or to the paragraphs.
   */
  method ParseAiSummary(summary: Option<string>) returns (bullets: seq<string>, paragraphs: seq<string>)
    ensures (bullets, paragraphs) == Parse(summary)
    ensures |bullets| + |paragraphs| == |SummaryLines(summary)|
  {
    if summary.None? || summary.value == [] {
      return [], [];
    }
    var lines := NonBlank(SplitLines(summary.value));
    bullets, paragraphs := [], [];
    var i := 0;
    while i < |lines|
      invariant 0 <= i <= |lines|
      invariant bullets == BulletsOf(lines[..i])
      invariant paragraphs == ParagraphsOf(lines[..i])
    {
      var line := lines[i];
      ClassifyStep(lines, i);
      if IsDashBullet(line) {
        bullets := bullets + [Strip(line[2..])];
      } else if IsNumberedBullet(line) {
        bullets := bullets + [Strip(line[3..])];
      } else {
        paragraphs := paragraphs + [line];
      }
      i := i + 1;
    }
    assert lines[..|lines|] == lines;
    PartitionCount(lines);
  }

  /** One more line extends the list the source's `if`/`elif`/`else` picks for it. */
  lemma ClassifyStep(lines: seq<string>, i: nat)
    requires i < |lines|
    ensures var line := lines[i];
      BulletsOf(lines[..i + 1]) == BulletsOf(lines[..i])
        + (if IsDashBullet(line) then [Strip(line[2..])]
           else if IsNumberedBullet(line) then [Strip(line[3..])] else [])
    ensures var line := lines[i];
      ParagraphsOf(lines[..i + 1]) == ParagraphsOf(lines[..i])
        + (if IsDashBullet(line) || IsNumberedBullet(line) then [] else [line])
  {
    ClassifyAppend(lines[..i], lines[i]);
    assert lines[..i + 1] == lines[..i] + [lines[i]];
  }

  /** Classifying a concatenation classifies each part (order is kept). */
  lemma {:induction false} BulletsAppend(a: seq<string>, b: seq<string>)
    ensures BulletsOf(a + b) == BulletsOf(a) + BulletsOf(b)
    decreases |a|
  {
    if a == [] {
      assert a + b == b;
    } else {
      var c := a + b;
      assert c[0] == a[0] && c[1..] == a[1..] + b;
      BulletsAppend(a[1..], b);
    }
  }

  lemma {:induction false} ParagraphsAppend(a: seq<string>, b: seq<string>)
    ensures ParagraphsOf(a + b) == ParagraphsOf(a) + ParagraphsOf(b)
    decreases |a|
  {
    if a == [] {
      assert a + b == b;
    } else {
      var c := a + b;
      assert c[0] == a[0] && c[1..] == a[1..] + b;
      ParagraphsAppend(a[1..], b);
    }
  }

  /** Appending one line appends it to exactly the list its kind selects. */
  lemma ClassifyAppend(a: seq<string>, line: string)
    ensures BulletsOf(a + [line]) == BulletsOf(a) + (if IsBulletLine(line) then [BulletText(line)] else [])
    ensures ParagraphsOf(a + [line]) == ParagraphsOf(a) + (if IsBulletLine(line) then [] else [line])
  {
    BulletsAppend(a, [line]);
    ParagraphsAppend(a, [line]);
    assert [line][1..] == [];
  }

  /** Every line goes to exactly one of the two lists. */
  lemma {:induction false} PartitionCount(lines: seq<string>)
    ensures |BulletsOf(lines)| + |ParagraphsOf(lines)| == |lines|
  {
    if lines != [] { PartitionCount(lines[1..]); }
  }

  /** The paragraphs are exactly the lines that are not bullets. */
  lemma {:induction false} ParagraphsAreNonBulletLines(lines: seq<string>, x: string)
    ensures x in ParagraphsOf(lines) <==> x in lines && !IsBulletLine(x)
  {
    if lines != [] {
      ParagraphsAreNonBulletLines(lines[1..], x);
      assert lines == [lines[0]] + lines[1..];
    }
  }

  /** Every bullet comes from a bullet line, and every bullet line gives a bullet. */
  lemma {:induction false} BulletsComeFromBulletLines(lines: seq<string>)
    ensures forall b :: b in BulletsOf(lines) ==> exists l :: l in lines && IsBulletLine(l) && BulletText(l) == b
    ensures forall l :: l in lines && IsBulletLine(l) ==> BulletText(l) in BulletsOf(lines)
  {
    if lines != [] {
      BulletsComeFromBulletLines(lines[1..]);
      assert lines == [lines[0]] + lines[1..];
      forall b | b in BulletsOf(lines)
        ensures exists l :: l in lines && IsBulletLine(l) && BulletText(l) == b
      {
        if b in BulletsOf(lines[1..]) {
          var l :| l in lines[1..] && IsBulletLine(l) && BulletText(l) == b;
          assert l in lines;
        } else {
          assert lines[0] in lines;
        }
      }
    }
  }

  /** The lines the classifier sees are non-empty and carry no surrounding whitespace. */
  lemma {:induction false} NonBlankClean(lines: seq<string>)
    ensures forall l :: l in NonBlank(lines) ==> l != [] && IsStripped(l)
    ensures forall l :: l in lines && !AllSpace(l) ==> Strip(l) in NonBlank(lines)
    ensures |NonBlank(lines)| <= |lines|
  {
    if lines != [] {
      NonBlankClean(lines[1..]);
      assert lines == [lines[0]] + lines[1..];
    }
  }

  /** Every kept line is the stripped form of some non-blank input line: nothing is added. */
  lemma {:induction false} NonBlankAddsNothing(lines: seq<string>)
    ensures forall l :: l in NonBlank(lines) ==> exists x :: x in lines && !AllSpace(x) && Strip(x) == l
  {
    if lines != [] {
      var rest := lines[1..];
      NonBlankAddsNothing(rest);
      var head := if Strip(lines[0]) == [] then [] else [Strip(lines[0])];
      assert NonBlank(lines) == head + NonBlank(rest);
      forall l | l in NonBlank(lines) ensures exists x :: x in lines && !AllSpace(x) && Strip(x) == l {
        if l in head {
          assert lines[0] in lines;
        } else {
          var x :| x in rest && !AllSpace(x) && Strip(x) == l;
          assert x in lines;
        }
      }
    }
  }

  /** Dropping blank lines works line by line, so it keeps the order of the lines it keeps. */
  lemma {:induction false} NonBlankAppend(a: seq<string>, b: seq<string>)
    ensures NonBlank(a + b) == NonBlank(a) + NonBlank(b)
  {
    if a == [] {
      assert a + b == b;
    } else {
      var c := a + b;
      assert c[0] == a[0] && c[1..] == a[1..] + b;
      NonBlankAppend(a[1..], b);
    }
  }

  /** A missing or empty summary yields two empty lists. */
  lemma ParseEmpty(summary: Option<string>)
    requires summary.None? || summary.value == []
    ensures Parse(summary) == ([], [])
  {
  }

  /** Each stripped line `- x` / `* x` becomes the bullet `x` stripped, which is never empty. */
  lemma DashBullet(line: string)
    requires line != [] && IsStripped(line) && IsDashBullet(line)
    ensures IsBulletLine(line) && BulletText(line) == Strip(line[2..])
    ensures BulletText(line) != []
  {
    assert |line| >= 3;
    var rest := line[2..];
    assert rest[|rest| - 1] == line[|line| - 1];
  }

  /** `NN.` and `NN)` with exactly two leading digits make a bullet; the tail is stripped. */
  lemma NumberedBulletIff(line: string)
    ensures IsNumberedBullet(line) <==>
      |line| >= 3 && Numbers.IsDigit(line[0]) && Numbers.IsDigit(line[1]) && (line[2] == '.' || line[2] == ')')
    ensures IsNumberedBullet(line) ==> IsBulletLine(line) && BulletText(line) == Strip(line[3..])
  {
    if IsNumberedBullet(line) {
      assert |Slice(line, 2, 3)| == 1;
      assert Slice(line, 0, 2)[0] == line[0] && Slice(line, 0, 2)[1] == line[1];
      assert Slice(line, 2, 3)[0] == line[2];
    }
    if |line| >= 3 && Numbers.IsDigit(line[0]) && Numbers.IsDigit(line[1]) && (line[2] == '.' || line[2] == ')') {
      assert Slice(line, 0, 2) == [line[0], line[1]];
      assert Slice(line, 2, 3) == [line[2]];
    }
  }

  /** A single leading digit is not enough: `1. foo` and a lone `7` are paragraphs. */
  lemma OneDigitIsParagraph()
    ensures !IsBulletLine("1. foo")
    ensures !IsBulletLine("7")
  {
    NumberedBulletIff("1. foo");
    NumberedBulletIff("7");
  }

  /** `12) x` is the bullet `x`; `12.` is a bullet with empty text. */
  lemma TwoDigitBullets()
    ensures IsBulletLine("12) x") && BulletText("12) x") == "x"
    ensures IsBulletLine("12.") && BulletText("12.") == ""
  {
    NumberedBulletIff("12) x");
    NumberedBulletIff("12.");
    assert "12) x"[3..] == " x";
    assert " x"[1..] == "x";
    assert TrimStart(" x") == "x";
    assert "12."[3..] == "";
  }

  /** A summary with no non-blank line parses to nothing, and only such a summary does. */
  lemma ParseEmptyIff(summary: Option<string>)
    ensures Parse(summary) == ([], []) <==> SummaryLines(summary) == []
  {
    PartitionCount(SummaryLines(summary));
  }
}
