/** The Python string operations the test runner and its fixture helpers use.
    Strings are sequences of characters; the only line boundary is '\n'. */
module Text {

  /** `s.startswith(p)` */
  predicate StartsWith(s: string, p: string) {
    |p| <= |s| && s[..|p|] == p
  }

  /** `sep` occurs in `s` at position `j` */
  predicate OccursAt(s: string, sep: string, j: nat) {
    j + |sep| <= |s| && s[j..j + |sep|] == sep
  }

  /** `sep in s` */
  ghost predicate Contains(s: string, sep: string) {
    exists j: nat :: OccursAt(s, sep, j)
  }

  // ---------------------------------------------------------------- join and split

  /** `sep.join(parts)` */
  function Join(sep: string, parts: seq<string>): string
    decreases |parts|
  {
    if |parts| == 0 then ""
    else if |parts| == 1 then parts[0]
    else parts[0] + sep + Join(sep, parts[1..])
  }

  /** `s.split(c)` for a one-character separator */
  function Split(s: string, c: char): (r: seq<string>)
    ensures |r| > 0
    decreases |s|
  {
    if s == "" then [""]
    else if s[0] == c then [""] + Split(s[1..], c)
    else
      var rest := Split(s[1..], c);
      [[s[0]] + rest[0]] + rest[1..]
  }

  /** Regrouping the pieces of a concatenation. */
  lemma Regroup(a: string, b: string, c: string, d: string)
    ensures a + (b + c) + d == (a + b) + c + d
  {
  }

  /** The same, with a parenthesised group of three. */
  lemma RegroupThree(a: string, b: string, c: string, d: string, e: string)
    ensures a + (b + c + d) + e == (a + b) + c + d + e
  {
  }

  lemma {:induction false} SplitPrefix(p: string, rest: string, c: char)
    requires c !in p
    ensures Split(p + rest, c) == [p + Split(rest, c)[0]] + Split(rest, c)[1..]
    decreases |p|
  {
    if p != "" {
      assert (p + rest)[0] == p[0] && p[0] != c;
      assert (p + rest)[1..] == p[1..] + rest;
      SplitPrefix(p[1..], rest, c);
      assert [p[0]] + (p[1..] + Split(rest, c)[0]) == p + Split(rest, c)[0];
    } else {
      var r := Split(rest, c);
      assert p + rest == rest;
      assert p + r[0] == r[0];
      assert [r[0]] + r[1..] == r;
    }
  }

  /** Splitting a joined text at the separator gives the parts back,
      provided no part contains the separator. */
  lemma {:induction false} SplitJoin(parts: seq<string>, c: char)
    requires |parts| > 0
    requires forall i :: 0 <= i < |parts| ==> c !in parts[i]
    ensures Split(Join([c], parts), c) == parts
    decreases |parts|
  {
    if |parts| == 1 {
      SplitPrefix(parts[0], "", c);
      assert parts[0] + "" == parts[0];
    } else {
      var tail := Join([c], parts[1..]);
      assert Join([c], parts) == parts[0] + ([c] + tail);
      SplitPrefix(parts[0], [c] + tail, c);
      assert ([c] + tail)[1..] == tail;
      SplitJoin(parts[1..], c);
      assert Split([c] + tail, c) == [""] + parts[1..];
      assert parts[0] + "" == parts[0];
      assert [parts[0]] + parts[1..] == parts;
    }
  }

  /** The last piece of `s.split(sep)`: Python scans from the left and cuts at each
      occurrence it meets, so the last piece starts after the last cut.  Returns the
      start of the last piece; `start` is the start of the current piece, `i` the
      scanning position. */
  function LastCut(s: string, sep: string, i: nat, start: nat): (k: nat)
    requires sep != "" && start <= i <= |s|
    requires start == 0 || (|sep| <= start && OccursAt(s, sep, start - |sep|))
    requires forall j: nat :: start <= j < i ==> !OccursAt(s, sep, j)
    ensures start <= k <= |s|
    ensures k == 0 || (|sep| <= k && OccursAt(s, sep, k - |sep|))
    ensures forall j: nat :: k <= j ==> !OccursAt(s, sep, j)
    decreases |s| - i
  {
    if i + |sep| > |s| then
      NoRoomLeft(s, sep, i);
      start
    else if OccursAt(s, sep, i) then LastCut(s, sep, i + |sep|, i + |sep|)
    else
      ClearOneMore(s, sep, start, i);
      LastCut(s, sep, i + 1, start)
  }

  /** No occurrence starts where the rest of the text is shorter than `sep`. */
  lemma NoRoomLeft(s: string, sep: string, i: nat)
    requires i + |sep| > |s|
    ensures forall j: nat :: i <= j ==> !OccursAt(s, sep, j)
  {
  }

  /** A stretch free of occurrences grows by a position where none starts. */
  lemma ClearOneMore(s: string, sep: string, start: nat, i: nat)
    requires forall j: nat :: start <= j < i ==> !OccursAt(s, sep, j)
    requires !OccursAt(s, sep, i)
    ensures forall j: nat :: start <= j < i + 1 ==> !OccursAt(s, sep, j)
  {
  }

  /** `s.split(sep)[-1]`: the whole of `s` when `sep` does not occur in it, and
      otherwise the text after an occurrence of `sep` in which `sep` no longer occurs. */
  function LastPiece(s: string, sep: string): (r: string)
    requires sep != ""
    ensures |r| <= |s| && s[|s| - |r|..] == r
    ensures !Contains(r, sep)
    ensures r == s || (|r| + |sep| <= |s| && s[|s| - |r| - |sep|..|s| - |r|] == sep)
  {
    var k := LastCut(s, sep, 0, 0);
    var r := s[k..];
    forall j: nat ensures !OccursAt(r, sep, j) {
      if j + |sep| <= |r| {
        assert r[j..j + |sep|] == s[k + j..k + j + |sep|];
        assert !OccursAt(s, sep, k + j);
      }
    }
    r
  }

  /** Without `sep` in `s`, the last piece is all of `s`. */
  lemma LastPieceAbsent(s: string, sep: string)
    requires sep != "" && !Contains(s, sep)
    ensures LastPiece(s, sep) == s
  {
  }

  /** When `sep` occurs in `s` exactly once, the last piece is what follows it. */
  lemma LastPieceAfterOnly(pre: string, sep: string, rest: string)
    requires sep != ""
    requires forall q: nat :: OccursAt(pre + sep + rest, sep, q) ==> q == |pre|
    ensures LastPiece(pre + sep + rest, sep) == rest
  {
    var s := pre + sep + rest;
    var r := LastPiece(s, sep);
    assert s[|pre|..|pre| + |sep|] == sep;
    assert OccursAt(s, sep, |pre|);
    var q := |s| - |r| - |sep|;
    assert OccursAt(s, sep, q);
    assert q == |pre|;
    assert s[|pre| + |sep|..] == rest;
  }

  // ---------------------------------------------------------------- replace

  /** `s.replace(c, t)` for a one-character pattern */
  function Replace(s: string, c: char, t: string): string
    decreases |s|
  {
    if s == "" then ""
    else (if s[0] == c then t else [s[0]]) + Replace(s[1..], c, t)
  }

  /** After the replacement, `c` is gone unless `t` holds it, and every character
      comes from `s` or from `t`. */
  lemma {:induction false} ReplaceChars(s: string, c: char, t: string)
    ensures c !in t ==> c !in Replace(s, c, t)
    ensures forall d :: d in Replace(s, c, t) ==> d in s || d in t
    decreases |s|
  {
    if s != "" {
      ReplaceChars(s[1..], c, t);
      var head := if s[0] == c then t else [s[0]];
      assert Replace(s, c, t) == head + Replace(s[1..], c, t);
      forall d | d in Replace(s, c, t) ensures d in s || d in t {
        if d in head {
          if s[0] != c { assert d == s[0]; }
        } else {
          assert d in Replace(s[1..], c, t);
          if d in s[1..] {
            var i :| 0 <= i < |s[1..]| && s[1..][i] == d;
            assert s[i + 1] == d;
          }
        }
      }
    }
  }

  /** Replacing `c` by a character that does not occur in `s`, then that character
      back by `c`, gives `s` again. */
  lemma {:induction false} ReplaceRoundTrip(s: string, c: char, d: char)
    requires d !in s
    ensures Replace(Replace(s, c, [d]), d, [c]) == s
    decreases |s|
  {
    if s != "" {
      var head := if s[0] == c then [d] else [s[0]];
      assert Replace(s, c, [d]) == head + Replace(s[1..], c, [d]);
      assert (head + Replace(s[1..], c, [d]))[1..] == Replace(s[1..], c, [d]);
      ReplaceRoundTrip(s[1..], c, d);
    }
  }

  lemma {:induction false} ReplaceConcat(a: string, b: string, c: char, t: string)
    ensures Replace(a + b, c, t) == Replace(a, c, t) + Replace(b, c, t)
    decreases |a|
  {
    if a != "" {
      var head := if a[0] == c then t else [a[0]];
      assert (a + b)[0] == a[0];
      assert (a + b)[1..] == a[1..] + b;
      ReplaceConcat(a[1..], b, c, t);
      assert Replace(a + b, c, t) == head + (Replace(a[1..], c, t) + Replace(b, c, t));
    } else {
      assert a + b == b;
    }
  }

  /** Text without `c` is left alone. */
  lemma {:induction false} ReplaceAbsent(s: string, c: char, t: string)
    requires c !in s
    ensures Replace(s, c, t) == s
    decreases |s|
  {
    if s != "" {
      assert s[0] != c;
      ReplaceAbsent(s[1..], c, t);
      assert [s[0]] + s[1..] == s;
    }
  }

  /** Turns each "::" back into "." (scanning from the left); the inverse of
      `Replace(s, '.', "::")` on texts without ':'. */
  function CollapseColons(s: string): string
    decreases |s|
  {
    if |s| >= 2 && s[0] == ':' && s[1] == ':' then "." + CollapseColons(s[2..])
    else if s == "" then ""
    else [s[0]] + CollapseColons(s[1..])
  }

  lemma {:induction false} CollapseRoundTrip(s: string)
    requires ':' !in s
    ensures CollapseColons(Replace(s, '.', "::")) == s
    decreases |s|
  {
    if s != "" {
      var rest := Replace(s[1..], '.', "::");
      if s[0] == '.' {
        assert Replace(s, '.', "::") == "::" + rest;
        assert ("::" + rest)[2..] == rest;
      } else {
        assert Replace(s, '.', "::") == [s[0]] + rest;
        assert ([s[0]] + rest)[1..] == rest;
      }
      CollapseRoundTrip(s[1..]);
    }
  }

  /** Splits `s` at its first "::"; the whole of `s` and "" when there is none. */
  function SplitAtColons(s: string): (string, string)
    decreases |s|
  {
    if |s| >= 2 && s[0] == ':' && s[1] == ':' then ("", s[2..])
    else if s == "" then ("", "")
    else
      var (a, b) := SplitAtColons(s[1..]);
      ([s[0]] + a, b)
  }

  lemma {:induction false} SplitAtColonsJoin(a: string, b: string)
    requires ':' !in a
    ensures SplitAtColons(a + "::" + b) == (a, b)
    decreases |a|
  {
    if a == "" {
      assert a + "::" + b == "::" + b;
      assert ("::" + b)[2..] == b;
    } else {
      assert (a + "::" + b)[1..] == a[1..] + "::" + b;
      SplitAtColonsJoin(a[1..], b);
      assert [a[0]] + a[1..] == a;
    }
  }

  // ---------------------------------------------------------------- padding and case

  function Repeat(c: char, n: nat): (r: string)
    ensures |r| == n && forall i :: 0 <= i < n ==> r[i] == c
  {
    if n == 0 then "" else [c] + Repeat(c, n - 1)
  }

  /** `format(s, fill + "^" + str(width))`: `s` in the middle of fill characters; when
      the padding is odd the extra character goes to the right, and a text at least
      `width` long is returned unchanged. */
  function Center(s: string, width: nat, fill: char): (r: string)
    ensures |r| == if |s| < width then width else |s|
    ensures var left := (|r| - |s|) / 2;
            && r[left..left + |s|] == s
            && (forall i :: 0 <= i < left ==> r[i] == fill)
            && (forall i :: left + |s| <= i < |r| ==> r[i] == fill)
  {
    if |s| >= width then s
    else
      var pad := width - |s|;
      Repeat(fill, pad / 2) + s + Repeat(fill, pad - pad / 2)
  }

  /** `c.lower()` for ASCII letters; every other character is kept. */
  function LowerChar(c: char): char {
    if 'A' <= c <= 'Z' then (c as int - 'A' as int + 'a' as int) as char else c
  }

  /** `s.lower()` */
  function Lower(s: string): (r: string)
    ensures |r| == |s| && forall i :: 0 <= i < |s| ==> r[i] == LowerChar(s[i])
  {
    if s == "" then "" else [LowerChar(s[0])] + Lower(s[1..])
  }
}
