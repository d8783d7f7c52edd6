/** `textwrap.indent`, the one piece of `textwrap` the report uses: it puts a prefix
    in front of lines and never re-wraps them. */
module TextWrap {
  import opened Text

  /** Length of the first line of a non-empty text, its '\n' included. */
  function FirstLineLength(s: string): (k: nat)
    requires s != ""
    ensures 0 < k <= |s|
    ensures forall i :: 0 <= i < k - 1 ==> s[i] != '\n'
    ensures k < |s| ==> s[k - 1] == '\n'
    decreases |s|
  {
    if s[0] == '\n' || |s| == 1 then 1 else 1 + FirstLineLength(s[1..])
  }

  /** The characters `str.strip()` removes (ASCII whitespace and the
      information separators). */
  predicate IsSpace(c: char) {
    c == ' ' || c == '\t' || c == '\n' || c == '\r' || c == '\U{B}' || c == '\U{C}'
    || ('\U{1C}' <= c <= '\U{1F}')
  }

  /** `not line.strip()` */
  predicate Blank(line: string) {
    forall i :: 0 <= i < |line| ==> IsSpace(line[i])
  }

  /** `textwrap.indent(s, prefix)` when `everyLine` is false (only lines that are not
      blank get the prefix), and `textwrap.indent(s, prefix, lambda lines: True)` when
      it is true. */
  function Indent(s: string, prefix: string, everyLine: bool): string
    decreases |s|
  {
    if s == "" then ""
    else
      var k := FirstLineLength(s);
      (if everyLine || !Blank(s[..k]) then prefix else "") + s[..k] + Indent(s[k..], prefix, everyLine)
  }

  /** Position `i` of `s` starts a line. */
  predicate LineStart(s: string, i: nat) {
    i < |s| && (i == 0 || s[i - 1] == '\n')
  }

  /** Every line of `s` starts with `p`. */
  ghost predicate EveryLineStartsWith(s: string, p: string) {
    forall i: nat :: LineStart(s, i) ==> StartsWith(s[i..], p)
  }

  /** A text made of one line (no '\n' before its last character). */
  predicate OneLine(a: string) {
    a != "" && forall i :: 0 <= i < |a| - 1 ==> a[i] != '\n'
  }

  /** The first line of `a + b` is `a` when `a` is one line that ends in '\n'
      (or `b` is empty). */
  lemma {:induction false} FirstLineOfConcat(a: string, b: string)
    requires OneLine(a)
    requires a[|a| - 1] == '\n' || b == ""
    ensures FirstLineLength(a + b) == |a|
    decreases |a|
  {
    if |a| > 1 {
      assert (a + b)[0] == a[0] && a[0] != '\n';
      assert (a + b)[1..] == a[1..] + b;
      FirstLineOfConcat(a[1..], b);
    }
  }

  /** Indenting a one-line head and the rest separately is indenting the whole. */
  lemma IndentHead(a: string, b: string, prefix: string)
    requires OneLine(a) && (a[|a| - 1] == '\n' || b == "")
    ensures Indent(a + b, prefix, true) == prefix + a + Indent(b, prefix, true)
  {
    FirstLineOfConcat(a, b);
    assert (a + b)[..|a|] == a;
    assert (a + b)[|a|..] == b;
  }

  /** One step of `Indent` with every line prefixed. */
  lemma IndentStep(s: string, prefix: string)
    requires s != ""
    ensures var k := FirstLineLength(s);
            Indent(s, prefix, true) == prefix + s[..k] + Indent(s[k..], prefix, true)
  {
  }

  /** A text without '\n' gets the prefix exactly once. */
  lemma IndentSingleLine(a: string, prefix: string, everyLine: bool)
    requires a != "" && '\n' !in a
    requires everyLine || !Blank(a)
    ensures Indent(a, prefix, everyLine) == prefix + a
  {
    FirstLineOfConcat(a, "");
    assert a + "" == a;
    assert a[..|a|] == a && a[|a|..] == "";
  }

  /** The prefixed first line of `s` is one line, ending in '\n' unless it is all of `s`. */
  lemma PrefixedFirstLine(p: string, s: string)
    requires '\n' !in p && s != ""
    ensures var k := FirstLineLength(s);
            OneLine(p + s[..k]) && (k < |s| ==> (p + s[..k])[|p| + k - 1] == '\n')
  {
    var k := FirstLineLength(s);
    var head := p + s[..k];
    forall i | 0 <= i < |head| - 1 ensures head[i] != '\n' {
      if i >= |p| { assert head[i] == s[i - |p|]; }
      else { assert head[i] == p[i]; assert p[i] in p; }
    }
  }

  /** Indenting twice is indenting once with the two prefixes joined,
      outer prefix first. */
  lemma {:induction false} IndentTwice(s: string, inner: string, outer: string)
    requires '\n' !in inner
    ensures Indent(Indent(s, inner, true), outer, true) == Indent(s, outer + inner, true)
    decreases |s|
  {
    if s != "" {
      var k := FirstLineLength(s);
      var line := s[..k];
      var rest := Indent(s[k..], inner, true);
      var head := inner + line;
      IndentStep(s, inner);
      PrefixedFirstLine(inner, s);
      assert k == |s| ==> rest == "";
      IndentHead(head, rest, outer);
      IndentTwice(s[k..], inner, outer);
      IndentStep(s, outer + inner);
      Regroup(outer, inner, line, Indent(s[k..], outer + inner, true));
    }
  }

  /** `textwrap.indent(s, p, lambda lines: True)` starts every line with `p`,
      provided `p` holds no '\n'. */
  lemma {:induction false} IndentMarksEveryLine(s: string, p: string)
    requires '\n' !in p
    ensures EveryLineStartsWith(Indent(s, p, true), p)
    decreases |s|
  {
    if s != "" {
      var k := FirstLineLength(s);
      var head := p + s[..k];
      var rest := Indent(s[k..], p, true);
      var r := head + rest;
      assert Indent(s, p, true) == r;
      PrefixedFirstLine(p, s);
      IndentMarksEveryLine(s[k..], p);
      forall i: nat | LineStart(r, i) ensures StartsWith(r[i..], p) {
        if i == 0 {
          assert r[..|p|] == p;
        } else if i < |head| {
          assert false;
        } else {
          var j := i - |head|;
          assert r[i..] == rest[j..];
          if j > 0 { assert rest[j - 1] == r[i - 1]; }
          assert LineStart(rest, j);
        }
      }
    }
  }
}
