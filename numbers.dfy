/**
 * Decimal rendering of the JSON numbers in a report: Python's `str(n)`,
 * `format(n, ',')` (thousands separators) and the renderer's `fmt_number`.
 */
module Numbers {
  import opened Wrappers

  /** The JSON values a report field may hold (floats, lists and objects are not modelled). */
  datatype Value = Int(i: int) | Bool(b: bool) | Str(s: string) | Null

  predicate IsDigit(c: char) { '0' <= c <= '9' }

  predicate AllDigits(s: string) {
    forall k :: 0 <= k < |s| ==> IsDigit(s[k])
  }

  function DigitChar(d: nat): (c: char)
    requires d < 10
    ensures IsDigit(c)
  {
    "0123456789"[d]
  }

  function DigitValue(c: char): (d: nat)
    requires IsDigit(c)
    ensures d < 10 && DigitChar(d) == c
  {
    (c as int - '0' as int) as nat
  }

  /** The decimal digits of `n`, most significant first, without leading zeros. */
  function NatStr(n: nat): (s: string)
    ensures s != [] && AllDigits(s)
    ensures s[0] == '0' ==> n == 0
  {
    if n < 10 then [DigitChar(n)] else NatStr(n / 10) + [DigitChar(n % 10)]
  }

  /** The number a string of decimal digits denotes. */
  function DecimalValue(s: string): nat
    requires AllDigits(s)
  {
    if s == [] then 0 else 10 * DecimalValue(s[..|s| - 1]) + DigitValue(s[|s| - 1])
  }

  /** Python's `str(i)` for an int: an optional '-' followed by the digits of |i|. */
  function IntStr(i: int): string {
    if i < 0 then "-" + NatStr(-i) else NatStr(i)
  }

  /** Inserts a ',' before every third digit counted from the right. */
  function Group(d: string): string {
    if |d| <= 3 then d else Group(d[..|d| - 3]) + "," + d[|d| - 3..]
  }

  /** Python's `format(i, ',')` for an int. */
  function FmtInt(i: int): string {
    if i < 0 then "-" + Group(NatStr(-i)) else Group(NatStr(i))
  }

  /** `s` with every ',' removed. */
  function RemoveCommas(s: string): string {
    if s == [] then [] else RemoveCommas(s[..|s| - 1]) + (if s[|s| - 1] == ',' then [] else [s[|s| - 1]])
  }

  /**
   * Digits in groups: a leading group of one to three digits, then groups of
   * exactly three digits, each preceded by a ','.
   */
  predicate WellGrouped(s: string) {
    if |s| <= 3 then s != [] && AllDigits(s)
    else s[|s| - 4] == ',' && AllDigits(s[|s| - 3..]) && WellGrouped(s[..|s| - 4])
  }

  /** The text `fmt_number` yields: `{v:,}` for a number, `str(v)` for anything else. */
  function FmtNumber(v: Value): string {
    match v
    case Int(i) => FmtInt(i)
    case Bool(b) => FmtInt(if b then 1 else 0)
    case Str(s) => s
    case Null => "None"
  }

  /** Python's `str(v)`, which is also what `'{}'.format(v)` and an f-string field give. */
  function PyStr(v: Value): string {
    match v
    case Int(i) => IntStr(i)
    case Bool(b) => if b then "True" else "False"
    case Str(s) => s
    case Null => "None"
  }

  /** `format(v, ',')`, which raises for a string or None. */
  function CommaFormat(v: Value): (r: Option<string>)
    ensures r.Some? <==> v.Int? || v.Bool?
    ensures r.Some? ==> r.value == FmtNumber(v)
  {
    match v
    case Int(i) => Some(FmtInt(i))
    case Bool(b) => Some(FmtInt(if b then 1 else 0))
    case _ => None
  }

  lemma {:induction false} NatStrValue(n: nat)
    ensures DecimalValue(NatStr(n)) == n
  {
    if n >= 10 {
      var s := NatStr(n);
      assert s[..|s| - 1] == NatStr(n / 10);
      NatStrValue(n / 10);
    }
  }

  lemma {:induction false} RemoveCommasAppend(a: string, b: string)
    ensures RemoveCommas(a + b) == RemoveCommas(a) + RemoveCommas(b)
    decreases |b|
  {
    if b == [] {
      assert a + b == a;
    } else {
      assert (a + b)[..|a + b| - 1] == a + b[..|b| - 1];
      RemoveCommasAppend(a, b[..|b| - 1]);
    }
  }

  lemma {:induction false} RemoveCommasNoComma(s: string)
    requires AllDigits(s)
    ensures RemoveCommas(s) == s
    decreases |s|
  {
    if s != [] {
      RemoveCommasNoComma(s[..|s| - 1]);
    }
  }

  /** Grouping puts the digits into well-formed groups. */
  lemma {:induction false} GroupWellGrouped(d: string)
    requires d != [] && AllDigits(d)
    ensures WellGrouped(Group(d))
    decreases |d|
  {
    if |d| > 3 {
      var hi, lo := d[..|d| - 3], d[|d| - 3..];
      GroupWellGrouped(hi);
      var g := Group(d);
      assert g == Group(hi) + "," + lo;
      assert g[..|g| - 4] == Group(hi);
      assert g[|g| - 3..] == lo;
    }
  }

  /** A separator and a group of digits lose only the separator. */
  lemma RemoveCommasSeparator(g: string, lo: string)
    requires AllDigits(lo)
    ensures RemoveCommas((g + ",") + lo) == RemoveCommas(g) + lo
  {
    var gc := g + ",";
    assert gc[|gc| - 1] == ',' && gc[..|gc| - 1] == g;
    assert RemoveCommas(gc) == RemoveCommas(g);
    RemoveCommasAppend(gc, lo);
    RemoveCommasNoComma(lo);
  }

  /** Grouping adds nothing but commas. */
  lemma {:induction false} GroupRemoveCommas(d: string)
    requires AllDigits(d)
    ensures RemoveCommas(Group(d)) == d
    decreases |d|
  {
    if |d| > 3 {
      var hi, lo := d[..|d| - 3], d[|d| - 3..];
      GroupRemoveCommas(hi);
      assert Group(d) == (Group(hi) + ",") + lo;
      RemoveCommasSeparator(Group(hi), lo);
      assert d == hi + lo;
    } else {
      RemoveCommasNoComma(d);
    }
  }

  /**
   * `format(i, ',')` is the plain decimal string with thousands separators:
   * removing the commas gives back `str(i)`, the digit groups are well
   * formed, and the digits denote |i|.
   */
  lemma FmtIntCorrect(i: int)
    ensures RemoveCommas(FmtInt(i)) == IntStr(i)
    ensures var body := if i < 0 then FmtInt(i)[1..] else FmtInt(i);
      (i < 0 ==> FmtInt(i)[0] == '-')
      && WellGrouped(body)
      && RemoveCommas(body) == NatStr(if i < 0 then -i else i)
      && DecimalValue(NatStr(if i < 0 then -i else i)) == (if i < 0 then -i else i)
  {
    var n: nat := if i < 0 then -i else i;
    var d := NatStr(n);
    var g := Group(d);
    GroupWellGrouped(d);
    GroupRemoveCommas(d);
    NatStrValue(n);
    if i < 0 {
      assert FmtInt(i) == "-" + g;
      assert FmtInt(i)[1..] == g;
      RemoveCommasAppend("-", g);
      assert RemoveCommas("-") == "-" by { assert "-"[..0] == []; }
    } else {
      assert FmtInt(i) == g;
    }
  }

  /** The characters `format(i, ',')` can produce. */
  predicate NumberChar(c: char) {
    IsDigit(c) || c == ',' || c == '-'
  }

  predicate AllNumberChars(s: string) {
    forall k :: 0 <= k < |s| ==> NumberChar(s[k])
  }

  lemma {:induction false} GroupChars(d: string)
    requires AllDigits(d)
    ensures AllNumberChars(Group(d))
    decreases |d|
  {
    if |d| > 3 {
      var hi, lo := d[..|d| - 3], d[|d| - 3..];
      GroupChars(hi);
      var g := Group(d);
      assert g == Group(hi) + ("," + lo);
      forall k | 0 <= k < |g| ensures NumberChar(g[k]) {
        if k < |Group(hi)| {
          assert g[k] == Group(hi)[k];
        } else if k > |Group(hi)| {
          assert g[k] == lo[k - |Group(hi)| - 1];
        }
      }
    }
  }

  /** A formatted number holds only digits, `,` and `-`. */
  lemma FmtNumberChars(v: Value)
    requires v.Int? || v.Bool?
    ensures AllNumberChars(FmtNumber(v))
  {
    var i := if v.Int? then v.i else if v.b then 1 else 0;
    assert FmtNumber(v) == FmtInt(i);
    var g := Group(NatStr(if i < 0 then -i else i));
    GroupChars(NatStr(if i < 0 then -i else i));
    if i < 0 {
      var f := FmtInt(i);
      assert f == "-" + g;
      forall k | 0 <= k < |f| ensures NumberChar(f[k]) {
        if k > 0 { assert f[k] == g[k - 1]; }
      }
    }
  }

  /** Values that are not numbers come back as their `str`. */
  lemma FmtNumberFallback(v: Value)
    requires !v.Int? && !v.Bool?
    ensures FmtNumber(v) == PyStr(v)
  {
  }

  lemma FmtNumberExamples()
    ensures FmtInt(-1000) == "-1,000"
    ensures FmtInt(999) == "999"
    ensures FmtNumber(Bool(true)) == "1"
  {
    assert NatStr(1000) == "1000";
    assert NatStr(999) == "999";
  }
}
