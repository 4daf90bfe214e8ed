/** The range parser of cat/models.py: `parse(text)` full-matches the pattern
    `(\d+) *- *(\d+)` and returns the two digit runs as strings. Digits, spaces and the
    hyphen are disjoint character classes, so a match splits the text in exactly one way and
    the parser below reads it left to right. */
module Ranges {
  import opened Values

  predicate IsDigit(c: char) { '0' <= c <= '9' }

  predicate IsSpace(c: char) { c == ' ' }

  /** `\d+`: a non-empty run of digits. */
  predicate IsNumeral(s: string) {
    |s| > 0 && forall i :: 0 <= i < |s| ==> IsDigit(s[i])
  }

  /** `n` spaces. */
  function Spaces(n: nat): (r: string)
    ensures |r| == n && forall i :: 0 <= i < n ==> r[i] == ' '
  {
    seq(n, _ => ' ')
  }

  /** The texts the pattern matches: `lo`, `n` spaces, a hyphen, `m` spaces, `hi`. */
  function Format(lo: string, n: nat, m: nat, hi: string): string {
    lo + (Spaces(n) + (['-'] + (Spaces(m) + hi)))
  }

  /** The length of the longest prefix of `t` whose characters all satisfy `p`. */
  function Span(t: string, p: char -> bool): (n: nat)
    ensures n <= |t|
    ensures forall i :: 0 <= i < n ==> p(t[i])
    ensures n < |t| ==> !p(t[n])
  {
    if t == [] || !p(t[0]) then 0 else 1 + Span(t[1..], p)
  }

  /** The span of a run followed by a character outside the class is the run. */
  lemma {:induction false} SpanOfRun(a: string, b: string, p: char -> bool)
    requires forall i :: 0 <= i < |a| ==> p(a[i])
    requires b == [] || !p(b[0])
    ensures Span(a + b, p) == |a|
  {
    if a != [] {
      assert (a + b)[1..] == a[1..] + b;
      SpanOfRun(a[1..], b, p);
    }
  }

  /** The text after the leading spaces (` *`). */
  function SkipSpaces(u: string): (w: string)
    ensures |w| <= |u|
  {
    u[Span(u, IsSpace)..]
  }

  /** `parse(text)`: the two digit runs, or None when the text is not wholly of the form
      digits, spaces, hyphen, spaces, digits. */
  function Parse(t: string): (r: Option<(string, string)>)
  {
    var i := Span(t, IsDigit);
    var u := SkipSpaces(t[i..]);
    if i == 0 || u == [] || u[0] != '-' then None
    else
      var w := SkipSpaces(u[1..]);
      if IsNumeral(w) then Some((t[..i], w)) else None
  }

  lemma SkipSpacesOfRun(n: nat, b: string)
    requires b == [] || b[0] != ' '
    ensures SkipSpaces(Spaces(n) + b) == b
  {
    SpanOfRun(Spaces(n), b, IsSpace);
    assert (Spaces(n) + b)[n..] == b;
  }

  /** Every text of the form is accepted, and the parser returns exactly its two runs. */
  lemma ParseFormat(lo: string, n: nat, m: nat, hi: string)
    requires IsNumeral(lo) && IsNumeral(hi)
    ensures Parse(Format(lo, n, m, hi)) == Some((lo, hi))
  {
    var t := Format(lo, n, m, hi);
    var tail := Spaces(n) + (['-'] + (Spaces(m) + hi));
    SpanOfRun(lo, tail, IsDigit);
    assert t[|lo|..] == tail;
    assert t[..|lo|] == lo;
    SkipSpacesOfRun(n, ['-'] + (Spaces(m) + hi));
    assert (['-'] + (Spaces(m) + hi))[1..] == Spaces(m) + hi;
    SkipSpacesOfRun(m, hi);
  }

  /** A text is its leading spaces followed by the rest. */
  lemma LeadingSpaces(u: string, n: nat)
    requires n == Span(u, IsSpace)
    ensures u == Spaces(n) + u[n..]
  {
    assert u[..n] == Spaces(n);
    assert u == u[..n] + u[n..];
  }

  /** Reassembles a text from the pieces the parser reads. */
  lemma Reassemble(t: string, i: nat, v: string, n: nat, u: string, x: string, m: nat, lo: string, hi: string)
    requires i <= |t| && v == t[i..] && lo == t[..i]
    requires v == Spaces(n) + u
    requires |u| >= 1 && u[0] == '-' && x == u[1..]
    requires x == Spaces(m) + hi
    ensures t == Format(lo, n, m, hi)
  {
    assert u == ['-'] + x;
    assert t == lo + v;
  }

  /** The runs the parser returns are numerals. */
  lemma ParseRuns(t: string, lo: string, hi: string)
    requires Parse(t) == Some((lo, hi))
    ensures IsNumeral(lo) && IsNumeral(hi)
  {
    var i := Span(t, IsDigit);
    assert lo == t[..i];
    forall c | 0 <= c < |lo| ensures IsDigit(lo[c]) {
      assert lo[c] == t[c];
    }
  }

  /** Whatever the parser accepts is of the form, and the runs it returns are exactly the
      ones the text is built from. */
  lemma ParseSound(t: string, lo: string, hi: string)
    requires Parse(t) == Some((lo, hi))
    ensures IsNumeral(lo) && IsNumeral(hi)
    ensures exists n: nat, m: nat :: t == Format(lo, n, m, hi)
  {
    ParseRuns(t, lo, hi);
    var i := Span(t, IsDigit);
    var v := t[i..];
    var n := Span(v, IsSpace);
    var u := SkipSpaces(v);
    assert u == v[n..];
    assert |u| >= 1 && u[0] == '-';
    var x := u[1..];
    var m := Span(x, IsSpace);
    assert lo == t[..i] && hi == x[m..];
    LeadingSpaces(x, m);
    LeadingSpaces(v, n);
    Reassemble(t, i, v, n, u, x, m, lo, hi);
  }

  /** The language of the pattern `(\d+) *- *(\d+)`. */
  ghost predicate IsRange(t: string) {
    exists lo, n: nat, m: nat, hi :: IsNumeral(lo) && IsNumeral(hi) && t == Format(lo, n, m, hi)
  }

  /** `parse` fails exactly on the texts outside the language: leading or trailing
      characters, a missing run, a tab or any other character in place of a space. */
  lemma ParseFailsOutsideForm(t: string)
    ensures Parse(t).None? <==> !IsRange(t)
  {
    if Parse(t).Some? {
      var (lo, hi) := Parse(t).value;
      ParseSound(t, lo, hi);
    } else if IsRange(t) {
      var lo, n: nat, m: nat, hi :| IsNumeral(lo) && IsNumeral(hi) && t == Format(lo, n, m, hi);
      ParseFormat(lo, n, m, hi);
    }
  }

  /** Python's `parse(v)` on any value: a non-string is refused by the regex (TypeError), a
      string that does not match makes `None.groups()` fail (AttributeError), and a match is
      the tuple of the two digit strings. */
  function ParseCall(v: Value): (r: Result<Value>)
    ensures !v.VStr? ==> r == Failure(TypeError)
    ensures v.VStr? && !IsRange(v.s) ==> r == Failure(AttributeError)
    ensures v.VStr? && IsRange(v.s) ==> r.Success? && r.value.VTuple? && |r.value.items| == 2
  {
    ParseFailsOutsideForm(if v.VStr? then v.s else "");
    match v
    case VStr(s) =>
      (match Parse(s)
       case None => Failure(AttributeError)
       case Some((lo, hi)) => Success(VTuple([VStr(lo), VStr(hi)])))
    case _ => Failure(TypeError)
  }

  /** What `parse` gives on a text of the form: the tuple of its two runs. */
  lemma ParseCallFormat(lo: string, n: nat, m: nat, hi: string)
    requires IsNumeral(lo) && IsNumeral(hi)
    ensures ParseCall(VStr(Format(lo, n, m, hi))) == Success(VTuple([VStr(lo), VStr(hi)]))
  {
    ParseFormat(lo, n, m, hi);
  }

  /** Examples: spaces around the hyphen are optional. */
  lemma ParseAcceptsExamples()
    ensures Parse("9 - 15") == Some(("9", "15"))
    ensures Parse("9-15") == Some(("9", "15"))
  {
    ParseFormat("9", 1, 1, "15");
    assert Format("9", 1, 1, "15") == "9 - 15";
    ParseFormat("9", 0, 0, "15");
    assert Format("9", 0, 0, "15") == "9-15";
  }

  /** Example: words are refused. */
  lemma ParseRefusesWords()
    ensures Parse("nine-fifteen") == None
  {
    assert Span("nine-fifteen", IsDigit) == 0;
  }

  /** Example: a tab does not stand in for a space. */
  lemma ParseRefusesTab()
    ensures Parse("9\t- 15") == None
  {
    var t := "9\t- 15";
    assert t == "9" + "\t- 15";
    SpanOfRun("9", "\t- 15", IsDigit);
    assert t[1..] == "\t- 15";
    assert Span("\t- 15", IsSpace) == 0;
  }

  /** Example: trailing text is refused. */
  lemma ParseRefusesTrailing()
    ensures Parse("9 - 15 ") == None
  {
    var t := "9 - 15 ";
    assert t == "9" + " - 15 ";
    SpanOfRun("9", " - 15 ", IsDigit);
    assert t[1..] == Spaces(1) + "- 15 ";
    SkipSpacesOfRun(1, "- 15 ");
    assert "- 15 "[1..] == Spaces(1) + "15 ";
    SkipSpacesOfRun(1, "15 ");
    assert !IsDigit("15 "[2]);
  }
}
