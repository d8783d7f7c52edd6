/** The result of one test and its line or lines in the report (`TestResult` in
    server_code/auto.py). */
module Results {
  import opened Options
  import opened Text
  import opened TextWrap
  import opened PyErrors

  /** `TestResult(success, test_name, error)` */
  datatype TestResult = TestResult(success: bool, testName: string, error: Option<Exception>)

  /** A result as the runner makes them: it has an error exactly when it failed. */
  predicate Consistent(r: TestResult) {
    r.success <==> r.error.None?
  }

  const IndentWidth: nat := 2
  const SuccessLeader := "Pass: "
  const FailureIndicator := ">"
  const FailureLeader := "Fail: "
  const SuccessIndent := Repeat(' ', IndentWidth)
  const FailureIndent := if FailureIndicator != "" then FailureIndicator + SuccessIndent[1..] else SuccessIndent
  const ErrorIndent := Repeat(' ', |FailureLeader| + IndentWidth)
  const DefaultMsg := "Sorry, no info given."

  /** The indentation constants as the class computes them. */
  lemma IndentValues()
    ensures SuccessIndent == "  " && FailureIndent == "> " && ErrorIndent == "        "
  {
    assert Repeat(' ', 0) == "";
    assert Repeat(' ', 1) == " ";
    assert SuccessIndent == "  ";
    assert ErrorIndent == [' '] + Repeat(' ', 7);
  }

  // ---------------------------------------------------------------- the error message

  /** Turns `(key, value)` pairs into "key: value" lines. */
  function EntryLines(entries: seq<(string, string)>): (r: seq<string>)
    ensures |r| == |entries|
  {
    seq(|entries|, i requires 0 <= i < |entries| => entries[i].0 + ": " + entries[i].1)
  }

  /** The message of an `AssertionError`: the default when it has no argument or a falsy
      first one; the lines of a list, a set or a dict argument; `str` of the error or
      of its argument otherwise. */
  function AssertionText(e: Exception): string {
    if e.args == [] || !Truthy(e.args[0]) then DefaultMsg
    else match e.args[0]
      case Str(_) => e.text
      case List(items) => Join("\n", items)
      case Set(items) => Join("\n", items)
      case Dict(entries) => Join("\n", EntryLines(entries))
      case Other(text, _, _) => text
  }

  /** The message shown under a failed test. */
  function ErrorText(error: Option<Exception>): string {
    match error
    case None => DefaultMsg
    case Some(e) =>
      if IsAssertion(e) then AssertionText(e)
      else if IsException(e) then "Error during test: " + e.kind.name + ": " + e.text
      else "Missed how to handle this error: " + ClassText(e.kind) + e.text
  }

  /** The text of a failed test named `name` with message `text`. */
  function FailureText(name: string, text: string): string {
    Indent(FailureLeader + name + "\n" + Indent(text, ErrorIndent, true), FailureIndent, true)
  }

  /** `str(result)` */
  function Render(r: TestResult): string {
    if r.success then Indent(SuccessLeader + r.testName, SuccessIndent, false)
    else FailureText(r.testName, ErrorText(r.error))
  }

  lemma NoNewlineInPrefixes()
    ensures '\n' !in FailureIndent && '\n' !in ErrorIndent && '\n' !in FailureIndent + ErrorIndent
  {
    IndentValues();
  }

  /** A passing test is one line: two spaces, "Pass: " and its name. */
  lemma RenderSuccess(r: TestResult)
    requires r.success && '\n' !in r.testName
    ensures Render(r) == "  Pass: " + r.testName
  {
    IndentValues();
    var a := SuccessLeader + r.testName;
    assert a[0] == 'P' && !IsSpace(a[0]);
    assert '\n' !in a by {
      forall i | 0 <= i < |a| ensures a[i] != '\n' {
        if i >= |SuccessLeader| { assert a[i] == r.testName[i - |SuccessLeader|]; }
      }
    }
    IndentSingleLine(a, SuccessIndent, false);
  }

  /** A one-line head followed by a message indented by `inner`, all indented by
      `outer`: the head behind `outer`, the message behind both. */
  lemma FramedMessage(head: string, body: string, inner: string, outer: string)
    requires OneLine(head) && head[|head| - 1] == '\n' && '\n' !in inner
    ensures Indent(head + Indent(body, inner, true), outer, true) == outer + head + Indent(body, outer + inner, true)
  {
    IndentHead(head, Indent(body, inner, true), outer);
    IndentTwice(body, inner, outer);
  }

  /** The failure header line: "Fail: " and the name, a one-line text ending in '\n'. */
  lemma FailureHead(name: string)
    requires '\n' !in name
    ensures OneLine(FailureLeader + name + "\n")
  {
    var head := FailureLeader + name + "\n";
    forall i | 0 <= i < |head| - 1 ensures head[i] != '\n' {
      if i >= |FailureLeader| { assert head[i] == name[i - |FailureLeader|]; }
    }
  }

  /** A failed test is "> Fail: " and its name, then its message with every line
      behind "> " and eight spaces. */
  lemma FailureLayout(name: string, text: string)
    requires '\n' !in name
    ensures FailureText(name, text) == "> Fail: " + name + "\n" + Indent(text, ">         ", true)
  {
    PrefixValues();
    FailureLayoutWith(name, text, "> Fail: ", ">         ");
  }

  lemma FailureLayoutWith(name: string, text: string, head: string, margin: string)
    requires '\n' !in name
    requires head == FailureIndent + FailureLeader && margin == FailureIndent + ErrorIndent
    ensures FailureText(name, text) == head + name + "\n" + Indent(text, margin, true)
  {
    FailureFramed(name, text);
    RegroupThree(FailureIndent, FailureLeader, name, "\n", Indent(text, margin, true));
  }


  /** The failure text: the failure indent and the header line, then the message
      behind both indents. */
  lemma FailureFramed(name: string, text: string)
    requires '\n' !in name
    ensures FailureText(name, text)
         == FailureIndent + (FailureLeader + name + "\n") + Indent(text, FailureIndent + ErrorIndent, true)
  {
    var head := FailureLeader + name + "\n";
    FailureHead(name);
    NoNewlineInPrefixes();
    FramedMessage(head, text, ErrorIndent, FailureIndent);
  }

  lemma PrefixValues()
    ensures FailureIndent + FailureLeader == "> Fail: "
    ensures FailureIndent + ErrorIndent == ">         "
  {
    IndentValues();
  }

  /** Every line of a failed test's text starts with the failure indicator "> ",
      whatever its name and message. */
  lemma {:induction false} FailureLinesMarked(name: string, text: string)
    ensures EveryLineStartsWith(FailureText(name, text), "> ")
  {
    IndentValues();
    IndentMarksEveryLine(FailureLeader + name + "\n" + Indent(text, ErrorIndent, true), FailureIndent);
  }

  /** A failed test's report text: the header line, then the message, every line
      behind "> ". */
  lemma RenderFailure(r: TestResult)
    requires !r.success && '\n' !in r.testName
    ensures Render(r) == "> Fail: " + r.testName + "\n" + Indent(ErrorText(r.error), ">         ", true)
    ensures EveryLineStartsWith(Render(r), "> ")
  {
    FailureLayout(r.testName, ErrorText(r.error));
    FailureLinesMarked(r.testName, ErrorText(r.error));
  }

  /** The lines of a list message are the items of the list. */
  lemma ListMessageLines(items: seq<string>)
    requires items != [] && forall i :: 0 <= i < |items| ==> '\n' !in items[i]
    ensures Split(ErrorText(Some(Raise(AssertionErrorKind, [List(items)]))), '\n') == items
  {
    assert IsSubclass(AssertionErrorKind, AssertionErrorKind);
    SplitJoin(items, '\n');
  }

  /** Without an argument, with a falsy one, or with no error at all, the message is
      the default; a list holding only the empty string is truthy and gives no text. */
  lemma DefaultMessageCases()
    ensures ErrorText(None) == DefaultMsg
    ensures ErrorText(Some(Raise(AssertionErrorKind, []))) == DefaultMsg
    ensures ErrorText(Some(AssertionError(""))) == DefaultMsg
    ensures ErrorText(Some(Raise(AssertionErrorKind, [List([""])]))) == ""
  {
    assert IsSubclass(AssertionErrorKind, AssertionErrorKind);
  }

  /** An error other than an assertion shows its class name and `str()` of it, which
      for a `KeyError` is the `repr` of the key. */
  lemma KeyErrorMessage(key: string)
    ensures ErrorText(Some(KeyError(Str(key)))) == "Error during test: KeyError: '" + key + "'"
  {
    KeyErrorIsException(Str(key));
    var e := KeyError(Str(key));
    assert e.text == "'" + key + "'";
  }

  // ---------------------------------------------------------------- the dict message as written

  /** Unpacking the string `key` into two names: it must have exactly two characters. */
  function UnpackPair(key: string): (r: Result<(string, string), Exception>)
    ensures r.Ok? <==> |key| == 2
    ensures r.Ok? ==> r.value.0 + r.value.1 == key && |r.value.0| == 1
    ensures r.Err? ==> r.error.kind == ValueErrorKind
  {
    if |key| == 2 then Ok(([key[0]], [key[1]]))
    else if |key| > 2 then Err(Raise(ValueErrorKind, [Str("too many values to unpack (expected 2)")]))
    else Err(Raise(ValueErrorKind, [Str("not enough values to unpack (expected 2, got " + [('0' as int + |key|) as char] + ")")]))
  }

  /** The dict branch as written iterates over the keys and unpacks each of them. */
  function DictLinesAsWritten(entries: seq<(string, string)>): (r: Result<seq<string>, Exception>)
    ensures r.Ok? ==> |r.value| == |entries|
    ensures r.Ok? <==> forall i :: 0 <= i < |entries| ==> |entries[i].0| == 2
    ensures r.Err? ==> r.error.kind == ValueErrorKind
    decreases |entries|
  {
    if entries == [] then Ok([])
    else
      match UnpackPair(entries[0].0)
      case Err(e) => Err(e)
      case Ok(kv) =>
        match DictLinesAsWritten(entries[1..])
        case Err(e) => Err(e)
        case Ok(rest) => Ok([kv.0 + ": " + kv.1] + rest)
  }

  /** The assertion branch as written: only a truthy dict argument can fail, and then
      with the `ValueError` of unpacking a key. */
  function AssertionTextAsWritten(e: Exception): (r: Result<string, Exception>)
    ensures r.Err? ==> e.args != [] && e.args[0].Dict? && r.error.kind == ValueErrorKind
    ensures r.Err? <==> e.args != [] && Truthy(e.args[0]) && e.args[0].Dict?
                         && exists i :: 0 <= i < |e.args[0].entries| && |e.args[0].entries[i].0| != 2
  {
    if e.args != [] && Truthy(e.args[0]) && e.args[0].Dict? then
      match DictLinesAsWritten(e.args[0].entries)
      case Err(x) => Err(x)
      case Ok(lines) => Ok(Join("\n", lines))
    else Ok(AssertionText(e))
  }

  function ErrorTextAsWritten(error: Option<Exception>): Result<string, Exception> {
    if error.Some? && IsAssertion(error.value) then AssertionTextAsWritten(error.value)
    else Ok(ErrorText(error))
  }

  /** `str(result)` as written: the `ValueError` of the dict branch escapes. */
  function RenderAsWritten(r: TestResult): Result<string, Exception> {
    if r.success then Ok(Render(r))
    else
      match ErrorTextAsWritten(r.error)
      case Err(x) => Err(x)
      case Ok(text) => Ok(FailureText(r.testName, text))
  }

  /** The error of `r` was raised with a dict as its first argument. */
  predicate DictMessage(r: TestResult) {
    r.error.Some? && r.error.value.args != [] && r.error.value.args[0].Dict?
  }

  /** The two agree on every message except one whose argument is a dict. */
  lemma RenderAgrees(r: TestResult)
    requires !DictMessage(r)
    ensures RenderAsWritten(r) == Ok(Render(r))
  {
  }

  /** A dict argument whose key is longer than two characters makes `str(result)`
      raise, where the items of the dict were meant to be shown. */
  lemma DictMessageCrashes(name: string)
    ensures var r := TestResult(false, name, Some(Raise(AssertionErrorKind, [Dict([("key", "value")])])));
            && RenderAsWritten(r).Err? && RenderAsWritten(r).error.kind == ValueErrorKind
            && ErrorText(r.error) == "key: value"
  {
    assert IsSubclass(AssertionErrorKind, AssertionErrorKind);
    var entries := [("key", "value")];
    assert EntryLines(entries)[0] == "key: value";
    assert EntryLines(entries) == ["key: value"];
    assert !("key" == "")  && |"key"| > 2;
  }

  /** A two-character key is split into its characters and the value is lost. */
  lemma DictMessageTwoCharKey()
    ensures ErrorTextAsWritten(Some(Raise(AssertionErrorKind, [Dict([("ab", "value")])]))) == Ok("a: b")
  {
    assert IsSubclass(AssertionErrorKind, AssertionErrorKind);
    var entries := [("ab", "value")];
    assert "ab"[0] == 'a' && "ab"[1] == 'b';
    assert UnpackPair("ab") == Ok(("a", "b"));
    assert entries[0].0 == "ab" && entries[1..] == [];
    assert DictLinesAsWritten(entries[1..]) == Ok([]);
    var line := "a" + ": " + "b";
    assert |line| == 4 && line[0] == 'a' && line[1] == ':' && line[2] == ' ' && line[3] == 'b';
    assert line == "a: b";
    assert [line] + [] == ["a: b"];
    assert DictLinesAsWritten(entries) == Ok(["a: b"]);
  }

  // ---------------------------------------------------------------- counting passes

  function B2I(b: bool): nat {
    if b then 1 else 0
  }

  /** `result + other`: `other + int(result.success)` */
  function Add(r: TestResult, other: nat): nat {
    other + B2I(r.success)
  }

  /** `other + result` with an `int` on the left: an `int` that is 0 gives
      `int(result.success)`, any other adds. */
  function RAdd(r: TestResult, other: nat): nat {
    if other == 0 then B2I(r.success) else Add(r, other)
  }

  /** `sum(results)`: 0 + results[0] + results[1] + ..., each step through `__radd__`. */
  function Sum(rs: seq<TestResult>): (n: nat)
    ensures n <= |rs|
    decreases |rs|
  {
    if rs == [] then 0 else RAdd(rs[|rs| - 1], Sum(rs[..|rs| - 1]))
  }

  function Flags(rs: seq<TestResult>): (r: seq<bool>)
    ensures |r| == |rs| && forall i :: 0 <= i < |rs| ==> r[i] == rs[i].success
  {
    seq(|rs|, i requires 0 <= i < |rs| => rs[i].success)
  }

  /** The number of passed tests. */
  function Passed(rs: seq<TestResult>): nat {
    multiset(Flags(rs))[true]
  }

  /** The number of failed tests. */
  function Failed(rs: seq<TestResult>): nat {
    multiset(Flags(rs))[false]
  }

  /** `len(results) - sum(results)` is the number of failed tests. */
  lemma {:induction false} SumCountsFailures(rs: seq<TestResult>)
    ensures |rs| - Sum(rs) == Failed(rs)
    decreases |rs|
  {
    if rs != [] {
      var init := rs[..|rs| - 1];
      assert Flags(rs) == Flags(init) + [rs[|rs| - 1].success];
      SumCountsFailures(init);
    }
  }

  /** `sum(results)` is the number of passed tests. */
  lemma {:induction false} SumCountsPasses(rs: seq<TestResult>)
    ensures Sum(rs) == Passed(rs)
    decreases |rs|
  {
    if rs != [] {
      var init := rs[..|rs| - 1];
      assert Flags(rs) == Flags(init) + [rs[|rs| - 1].success];
      SumCountsPasses(init);
    }
  }

  lemma SumConcat(a: seq<TestResult>, b: seq<TestResult>)
    ensures Sum(a + b) == Sum(a) + Sum(b)
  {
    assert Flags(a + b) == Flags(a) + Flags(b);
    SumCountsPasses(a + b);
    SumCountsPasses(a);
    SumCountsPasses(b);
  }

  /** The count of passes does not depend on the order of the results. */
  lemma {:induction false} SumPermutation(a: seq<TestResult>, b: seq<TestResult>)
    requires multiset(a) == multiset(b)
    ensures Sum(a) == Sum(b)
    decreases |a|
  {
    if a != [] {
      var x := a[|a| - 1];
      var init := a[..|a| - 1];
      assert a == init + [x];
      assert x in multiset(b);
      var k :| 0 <= k < |b| && b[k] == x;
      var rest := b[..k] + b[k + 1..];
      assert b == b[..k] + [x] + b[k + 1..];
      assert multiset(a) == multiset(init) + multiset{x};
      assert multiset(b) == multiset(b[..k] + [x]) + multiset(b[k + 1..]);
      assert multiset(b[..k] + [x]) == multiset(b[..k]) + multiset{x};
      assert multiset(rest) == multiset(b[..k]) + multiset(b[k + 1..]);
      assert multiset(init) == multiset(a) - multiset{x};
      assert multiset(rest) == multiset(b) - multiset{x};
      SumPermutation(init, rest);
      SumConcat(init, [x]);
      SumConcat(b[..k] + [x], b[k + 1..]);
      SumConcat(b[..k], [x]);
      SumConcat(b[..k], b[k + 1..]);
    }
  }

  lemma SumStep(rs: seq<TestResult>)
    requires rs != []
    ensures Sum(rs) == Sum(rs[..|rs| - 1]) + B2I(rs[|rs| - 1].success)
  {
  }

  /** Every test passed exactly when the sum is the number of results. */
  lemma {:induction false} AllPassed(rs: seq<TestResult>)
    ensures Sum(rs) == |rs| <==> forall i :: 0 <= i < |rs| ==> rs[i].success
    decreases |rs|
  {
    if rs != [] {
      var init := rs[..|rs| - 1];
      AllPassed(init);
      SumStep(rs);
      assert forall i :: 0 <= i < |init| ==> init[i] == rs[i];
    }
  }
}
