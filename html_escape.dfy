/** Python's `html.escape(s)` (with its default `quote=True`) and its inverse on the five entities. */
module HtmlEscape {

  /** The characters `html.escape` replaces by an entity. */
  predicate IsSpecial(c: char) {
    c == '&' || c == '<' || c == '>' || c == '"' || c == '\''
  }

  function EscapeChar(c: char): string {
    if c == '&' then "&amp;"
    else if c == '<' then "&lt;"
    else if c == '>' then "&gt;"
    else if c == '"' then "&quot;"
    else if c == '\'' then "&#x27;"
    else [c]
  }

  /** Python's `html.escape(s)`. */
  function Escape(s: string): string {
    if s == [] then [] else EscapeChar(s[0]) + Escape(s[1..])
  }

  /** The character the text at the start of non-empty `s` stands for, and how many characters it takes. */
  function DecodeOne(s: string): (d: (char, nat))
    requires s != []
    ensures 1 <= d.1 <= |s|
  {
    if "&amp;" <= s then ('&', 5)
    else if "&lt;" <= s then ('<', 4)
    else if "&gt;" <= s then ('>', 4)
    else if "&quot;" <= s then ('"', 6)
    else if "&#x27;" <= s then ('\'', 6)
    else (s[0], 1)
  }

  /** Decodes the five entities `Escape` produces and keeps every other character. */
  function Unescape(s: string): string
    decreases |s|
  {
    if s == [] then [] else var d := DecodeOne(s); [d.0] + Unescape(s[d.1..])
  }

  lemma DecodeEscapeChar(c: char, t: string)
    ensures DecodeOne(EscapeChar(c) + t) == (c, |EscapeChar(c)|)
  {
    var u := EscapeChar(c) + t;
    if c == '&' { assert "&amp;" <= u; }
    else if c == '<' { assert u[1] == 'l' && "&lt;" <= u; }
    else if c == '>' { assert u[1] == 'g' && "&gt;" <= u; }
    else if c == '"' { assert u[1] == 'q' && "&quot;" <= u; }
    else if c == '\'' { assert u[1] == '#' && "&#x27;" <= u; }
    else { assert u[0] == c; }
  }

  lemma UnescapeEscapeChar(c: char, t: string)
    ensures Unescape(EscapeChar(c) + t) == [c] + Unescape(t)
  {
    DecodeEscapeChar(c, t);
    assert (EscapeChar(c) + t)[|EscapeChar(c)|..] == t;
  }

  /** Escaping loses nothing: decoding the entities gives back the original text. */
  lemma {:induction false} UnescapeEscape(s: string)
    ensures Unescape(Escape(s)) == s
    decreases |s|
  {
    if s != [] {
      UnescapeEscapeChar(s[0], Escape(s[1..]));
      UnescapeEscape(s[1..]);
    }
  }

  /** The escaped text holds no '<', '>', '"' or "'", so it cannot open a tag or close an attribute. */
  lemma {:induction false} EscapeIsSafe(s: string)
    ensures forall k :: 0 <= k < |Escape(s)| ==> !IsSpecial(Escape(s)[k]) || Escape(s)[k] == '&'
    decreases |s|
  {
    if s != [] {
      EscapeIsSafe(s[1..]);
      var e, rest := EscapeChar(s[0]), Escape(s[1..]);
      assert Escape(s) == e + rest;
      forall k | 0 <= k < |e + rest| ensures !IsSpecial((e + rest)[k]) || (e + rest)[k] == '&' {
        if k >= |e| { assert (e + rest)[k] == rest[k - |e|]; }
      }
    }
  }

  lemma {:induction false} EscapeNoSpecial(s: string)
    requires forall k :: 0 <= k < |s| ==> !IsSpecial(s[k])
    ensures Escape(s) == s
    decreases |s|
  {
    if s != [] { EscapeNoSpecial(s[1..]); }
  }
}
