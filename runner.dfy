/** Running the discovered tests and writing the report (`_format_test_name`,
    `_run_test` and `run` in server_code/auto.py). */
module Runner {
  import opened Options
  import opened Text
  import opened Numerals
  import opened PyErrors
  import opened Discovery
  import opened Results

  /** The package name test modules are named relative to. */
  const TestModuleName := "tests"

  /** `_format_test_name(fn, test_module_name)`: the module path after the last
      "<test_module_name>." with '/' between its parts, "::", then the qualified name
      with "::" between its parts. */
  function FormatTestName(fn: Func, testModuleName: string): string {
    Replace(LastPiece(fn.moduleName, testModuleName + "."), '.', "/") + "::" + Replace(fn.qualname, '.', "::")
  }

  /** A formatted name gives back the function's qualified name and the part of its
      module path after the test package. */
  lemma FormatTestNameInverse(fn: Func, testModuleName: string)
    requires ':' !in fn.moduleName && '/' !in fn.moduleName && ':' !in fn.qualname
    ensures var (path, qual) := SplitAtColons(FormatTestName(fn, testModuleName));
            var piece := LastPiece(fn.moduleName, testModuleName + ".");
            && CollapseColons(qual) == fn.qualname
            && Replace(path, '/', ".") == piece
            && fn.moduleName[|fn.moduleName| - |piece|..] == piece
  {
    var piece := LastPiece(fn.moduleName, testModuleName + ".");
    var path := Replace(piece, '.', "/");
    var qual := Replace(fn.qualname, '.', "::");
    assert forall c :: c in piece ==> c in fn.moduleName by {
      forall c | c in piece ensures c in fn.moduleName {
        var i :| 0 <= i < |piece| && piece[i] == c;
        assert fn.moduleName[|fn.moduleName| - |piece| + i] == c;
      }
    }
    ReplaceChars(piece, '.', "/");
    assert ':' !in path;
    SplitAtColonsJoin(path, qual);
    ReplaceRoundTrip(piece, '.', '/');
    CollapseRoundTrip(fn.qualname);
  }

  /** A method `cls.meth` of a module `<pre><testModuleName>.<path>`, where the test
      package's name occurs only there, is reported as "<path with '/'>::cls::meth". */
  lemma FormatTestNameOfMethod(fn: Func, testModuleName: string, pre: string, path: string, cls: string, meth: string)
    requires fn.moduleName == pre + (testModuleName + ".") + path
    requires forall q: nat :: OccursAt(fn.moduleName, testModuleName + ".", q) ==> q == |pre|
    requires fn.qualname == cls + "." + meth && '.' !in cls && '.' !in meth
    ensures FormatTestName(fn, testModuleName) == Replace(path, '.', "/") + "::" + cls + "::" + meth
  {
    LastPieceAfterOnly(pre, testModuleName + ".", path);
    QualifiedMethodName(cls, meth);
    var p := Replace(path, '.', "/");
    assert FormatTestName(fn, testModuleName) == p + "::" + (cls + "::" + meth);
    AppendThree(p + "::", cls, "::", meth);
  }

  /** The qualified name "cls.meth" of a method becomes "cls::meth". */
  lemma QualifiedMethodName(cls: string, meth: string)
    requires '.' !in cls && '.' !in meth
    ensures Replace(cls + "." + meth, '.', "::") == cls + "::" + meth
  {
    ReplaceConcat(cls + ".", meth, '.', "::");
    ReplaceConcat(cls, ".", '.', "::");
    ReplaceAbsent(cls, '.', "::");
    ReplaceAbsent(meth, '.', "::");
    assert Replace(".", '.', "::") == "::" + Replace("", '.', "::");
  }

  lemma AppendThree(a: string, b: string, c: string, d: string)
    ensures a + (b + c + d) == a + b + c + d
  {
  }

  /** `_run_test(test)`: a test that returns passes; one that raises an `Exception`
      fails with it; anything else propagates out of the run. */
  function RunTest(u: Unit): (r: Result<TestResult, Exception>)
    ensures r.Ok? <==> (u.fn.outcome.Returned? || IsException(u.fn.outcome.error))
    ensures r.Err? ==> r.error == u.fn.outcome.error
    ensures r.Ok? ==> && (r.value.success <==> u.fn.outcome.Returned?)
                      && Consistent(r.value)
                      && (!r.value.success ==> r.value.error == Some(u.fn.outcome.error))
  {
    var name := FormatTestName(u.fn, TestModuleName);
    match u.fn.outcome
    case Returned => Ok(TestResult(true, name, None))
    case Raised(e) => if IsException(e) then Ok(TestResult(false, name, Some(e))) else Err(e)
  }

  /** A result is reported under the formatted name of its test, which gives back the
      test's qualified name. */
  lemma RunTestName(u: Unit)
    requires RunTest(u).Ok?
    requires ':' !in u.fn.moduleName && '/' !in u.fn.moduleName && ':' !in u.fn.qualname
    ensures RunTest(u).value.testName == FormatTestName(u.fn, TestModuleName)
    ensures CollapseColons(SplitAtColons(RunTest(u).value.testName).1) == u.fn.qualname
  {
    FormatTestNameInverse(u.fn, TestModuleName);
  }

  /** `[_run_test(test) for test in found_tests]`: stops at the first test whose error
      is not an `Exception`. */
  function RunAll(units: seq<Unit>): (r: Result<seq<TestResult>, Exception>)
    ensures r.Ok? ==> |r.value| == |units|
    decreases |units|
  {
    if units == [] then Ok([])
    else
      match RunTest(units[0])
      case Err(e) => Err(e)
      case Ok(first) =>
        var rest := RunAll(units[1..]);
        if rest.Err? then Err(rest.error) else Ok([first] + rest.value)
  }

  /** The run completes exactly when no test lets a non-`Exception` escape. */
  lemma {:induction false} RunAllCompletes(units: seq<Unit>)
    ensures RunAll(units).Ok? <==> forall i :: 0 <= i < |units| ==> RunTest(units[i]).Ok?
    decreases |units|
  {
    if units != [] && RunTest(units[0]).Ok? {
      var tail := units[1..];
      RunAllCompletes(tail);
      assert forall i :: 1 <= i < |units| ==> units[i] == tail[i - 1];
    }
  }

  /** A completed run holds each test's own result, in order. */
  lemma {:induction false} RunAllValues(units: seq<Unit>)
    requires RunAll(units).Ok?
    ensures forall i :: 0 <= i < |units| ==> Ok(RunAll(units).value[i]) == RunTest(units[i])
    decreases |units|
  {
    if units != [] {
      var tail := units[1..];
      RunAllValues(tail);
      assert forall i :: 1 <= i < |units| ==> units[i] == tail[i - 1];
    }
  }

  /** A run that does not complete ends with the error of the first test that lets a
      non-`Exception` escape. */
  lemma {:induction false} RunAllError(units: seq<Unit>)
    requires RunAll(units).Err?
    ensures exists i :: 0 <= i < |units| && RunTest(units[i]) == Err(RunAll(units).error)
                        && forall j :: 0 <= j < i ==> RunTest(units[j]).Ok?
    decreases |units|
  {
    if RunTest(units[0]).Ok? {
      var tail := units[1..];
      RunAllError(tail);
      var i :| 0 <= i < |tail| && RunTest(tail[i]) == Err(RunAll(tail).error)
               && forall j :: 0 <= j < i ==> RunTest(tail[j]).Ok?;
      assert RunTest(units[i + 1]) == Err(RunAll(units).error);
      assert forall j :: 1 <= j <= i ==> units[j] == tail[j - 1];
    } else {
      assert RunTest(units[0]) == Err(RunAll(units).error);
    }
  }

  /** When every test runs to an end, the run gives their results in order. */
  lemma {:induction false} RunAllOk(units: seq<Unit>, rs: seq<TestResult>)
    requires |rs| == |units| && forall j :: 0 <= j < |units| ==> RunTest(units[j]) == Ok(rs[j])
    ensures RunAll(units) == Ok(rs)
    decreases |units|
  {
    if units != [] {
      assert RunTest(units[0]) == Ok(rs[0]);
      RunAllOk(units[1..], rs[1..]);
      assert [rs[0]] + rs[1..] == rs;
    }
  }

  /** The run ends with the error of the first test whose error is not an `Exception`. */
  lemma {:induction false} RunAllFirstError(units: seq<Unit>, i: nat)
    requires i < |units| && RunTest(units[i]).Err?
    requires forall j :: 0 <= j < i ==> RunTest(units[j]).Ok?
    ensures RunAll(units) == Err(RunTest(units[i]).error)
    decreases i
  {
    if i > 0 {
      assert RunTest(units[0]).Ok?;
      RunAllFirstError(units[1..], i - 1);
    }
  }

  // ---------------------------------------------------------------- the report

  /** The head and the tail of a concatenation of three sequences. */
  lemma Frame<T>(a: seq<T>, b: seq<T>, c: seq<T>)
    ensures |a + b + c| == |a| + |b| + |c|
    ensures (a + b + c)[..|a|] == a && (a + b + c)[|a| + |b|..] == c
  {
    assert (a + b + c)[..|a|] == a;
    assert (a + b + c)[|a| + |b|..] == c;
  }



  const DefaultHeader := "Anvil Testing"
  const BannerWidth: nat := 50

  /** `f"{' ' + text + ' '}:=^50s"` */
  function Banner(text: string): (r: string)
    ensures |r| == if |text| + 2 < BannerWidth then BannerWidth else |text| + 2
  {
    Center(" " + text + " ", BannerWidth, '=')
  }

  /** The results that are shown: failures always, passes only when not quiet. */
  function Selected(rs: seq<TestResult>, quiet: bool): seq<TestResult>
    decreases |rs|
  {
    if rs == [] then []
    else
      var last := rs[|rs| - 1];
      Selected(rs[..|rs| - 1], quiet) + (if !last.success || !quiet then [last] else [])
  }

  /** `str` of each result. */
  function RenderAll(rs: seq<TestResult>): (lines: seq<string>)
    ensures |lines| == |rs|
    decreases |rs|
  {
    if rs == [] then [] else RenderAll(rs[..|rs| - 1]) + [Render(rs[|rs| - 1])]
  }

  /** The result lines of the report. */
  function Shown(rs: seq<TestResult>, quiet: bool): seq<string> {
    RenderAll(Selected(rs, quiet))
  }

  lemma SelectedSnoc(rs: seq<TestResult>, x: TestResult, quiet: bool)
    ensures Selected(rs + [x], quiet) == Selected(rs, quiet) + (if !x.success || !quiet then [x] else [])
  {
    assert (rs + [x])[..|rs|] == rs;
  }

  lemma RenderAllSnoc(rs: seq<TestResult>, x: TestResult)
    ensures RenderAll(rs + [x]) == RenderAll(rs) + [Render(x)]
  {
    assert (rs + [x])[..|rs|] == rs;
  }

  /** The three closing lines: passes out of the total, failures, and the verdict. */
  function Summary(rs: seq<TestResult>): seq<string> {
    var passed := Sum(rs);
    var failed := |rs| - passed;
    ["\n" + Decimal(passed) + "/" + Decimal(|rs|) + " passed",
     Decimal(failed) + " failed tests",
     Banner(if failed == 0 then "PASS" else "FAIL")]
  }

  /** With quiet, one result is shown per failure; without, every result is. */
  lemma {:induction false} SelectedCount(rs: seq<TestResult>, quiet: bool)
    ensures |Selected(rs, quiet)| == if quiet then |rs| - Sum(rs) else |rs|
    decreases |rs|
  {
    if rs != [] {
      SelectedCount(rs[..|rs| - 1], quiet);
      SumStep(rs);
    }
  }

  /** Without quiet every result is shown, in order. */
  lemma {:induction false} SelectedLoud(rs: seq<TestResult>)
    ensures Selected(rs, false) == rs
    decreases |rs|
  {
    if rs != [] {
      SelectedLoud(rs[..|rs| - 1]);
      assert rs[..|rs| - 1] + [rs[|rs| - 1]] == rs;
    }
  }

  /** With quiet exactly the failures are shown. */
  lemma {:induction false} SelectedQuiet(rs: seq<TestResult>)
    ensures forall r :: r in Selected(rs, true) ==> r in rs && !r.success
    ensures forall i :: 0 <= i < |rs| && !rs[i].success ==> rs[i] in Selected(rs, true)
    decreases |rs|
  {
    if rs != [] {
      var init := rs[..|rs| - 1];
      SelectedQuiet(init);
      assert rs == init + [rs[|rs| - 1]];
      assert forall i :: 0 <= i < |init| ==> init[i] == rs[i];
    }
  }

  /** The failed ones among `rs`, front to back. */
  function Failures(rs: seq<TestResult>): seq<TestResult>
    decreases |rs|
  {
    if rs == [] then [] else (if !rs[0].success then [rs[0]] else []) + Failures(rs[1..])
  }

  lemma {:induction false} FailuresConcat(a: seq<TestResult>, b: seq<TestResult>)
    ensures Failures(a + b) == Failures(a) + Failures(b)
    decreases |a|
  {
    if a != [] {
      assert (a + b)[0] == a[0] && (a + b)[1..] == a[1..] + b;
      FailuresConcat(a[1..], b);
    } else {
      assert a + b == b;
    }
  }

  /** With quiet the failures are shown in the order the tests ran. */
  lemma {:induction false} SelectedQuietInOrder(rs: seq<TestResult>)
    ensures Selected(rs, true) == Failures(rs)
    decreases |rs|
  {
    if rs != [] {
      var init, last := rs[..|rs| - 1], rs[|rs| - 1];
      SelectedQuietInOrder(init);
      assert rs == init + [last];
      FailuresConcat(init, [last]);
      assert Failures([last]) == (if !last.success then [last] else []) + Failures([]);
    }
  }

  function HeaderLines(header: Option<string>, appId: string, branch: string): seq<string> {
    [Banner(if header.None? then DefaultHeader else header.value), Banner(appId + ":" + branch)]
  }

  function CollectedLine(n: nat): string {
    "Collected " + Decimal(n) + " tests\n"
  }

  /** The lines of the report of a run over `units`, or the error that ended it. */
  function ReportLines(units: seq<Unit>, quiet: bool, header: Option<string>, appId: string, branch: string)
    : (r: Result<seq<string>, Exception>)
    ensures r.Ok? <==> RunAll(units).Ok?
  {
    match RunAll(units)
    case Err(e) => Err(e)
    case Ok(rs) =>
      Ok(HeaderLines(header, appId, branch) + [CollectedLine(|units|)] + Shown(rs, quiet) + Summary(rs))
  }

  lemma BannersDiffer()
    ensures Banner("PASS") != Banner("FAIL")
  {
    var pass, fail := Banner("PASS"), Banner("FAIL");
    assert pass[22..28] == " PASS " && fail[22..28] == " FAIL ";
  }

  /** The closing lines count the passes and failures, and the verdict is PASS exactly
      when every test passed. */
  lemma SummaryCounts(rs: seq<TestResult>)
    ensures var lines := Summary(rs);
            && |lines| == 3
            && lines[0] == "\n" + Decimal(Passed(rs)) + "/" + Decimal(|rs|) + " passed"
            && lines[1] == Decimal(Failed(rs)) + " failed tests"
  {
    SumCountsPasses(rs);
    SumCountsFailures(rs);
  }

  lemma SummaryVerdict(rs: seq<TestResult>)
    ensures |Summary(rs)| == 3
    ensures Summary(rs)[2] == Banner("PASS") <==> forall i :: 0 <= i < |rs| ==> rs[i].success
  {
    AllPassed(rs);
    BannersDiffer();
  }

  /** A completed run passes a test exactly when it returned. */
  lemma RunAllOutcomes(units: seq<Unit>)
    requires RunAll(units).Ok?
    ensures forall i :: 0 <= i < |units| ==> (RunAll(units).value[i].success <==> units[i].fn.outcome.Returned?)
  {
    var rs := RunAll(units).value;
    RunAllValues(units);
    forall i | 0 <= i < |units| ensures rs[i].success <==> units[i].fn.outcome.Returned? {
      assert Ok(rs[i]) == RunTest(units[i]);
    }
  }

  /** The report's lines: header, collected count, shown results, summary. */
  lemma ReportLinesShape(units: seq<Unit>, quiet: bool, header: Option<string>, appId: string, branch: string)
    requires RunAll(units).Ok?
    ensures var rs := RunAll(units).value;
            ReportLines(units, quiet, header, appId, branch).value
              == (HeaderLines(header, appId, branch) + [CollectedLine(|units|)]) + Shown(rs, quiet) + Summary(rs)
  {
  }

  /** The report ends with the counts of passes and failures among the tests. */
  lemma ReportCounts(units: seq<Unit>, quiet: bool, header: Option<string>, appId: string, branch: string)
    requires RunAll(units).Ok?
    ensures var lines := ReportLines(units, quiet, header, appId, branch).value;
            var rs := RunAll(units).value;
            && |lines| >= 6
            && lines[|lines| - 3] == "\n" + Decimal(Passed(rs)) + "/" + Decimal(|units|) + " passed"
            && lines[|lines| - 2] == Decimal(Failed(rs)) + " failed tests"
  {
    var rs := RunAll(units).value;
    var lines := ReportLines(units, quiet, header, appId, branch).value;
    ReportTail(units, quiet, header, appId, branch);
    CountsOf(lines, rs, |units|);
  }

  /** The report's verdict is PASS exactly when every test returned. */
  lemma ReportVerdict(units: seq<Unit>, quiet: bool, header: Option<string>, appId: string, branch: string)
    requires RunAll(units).Ok?
    ensures var lines := ReportLines(units, quiet, header, appId, branch).value;
            |lines| >= 6 && (lines[|lines| - 1] == Banner("PASS") <==> EveryTestReturned(units))
  {
    var rs := RunAll(units).value;
    var lines := ReportLines(units, quiet, header, appId, branch).value;
    ReportTail(units, quiet, header, appId, branch);
    AllReturned(units);
    VerdictOf(lines, rs, EveryTestReturned(units));
  }

  /** Lines that end with the summary of `rs` carry its counts. */
  lemma CountsOf(lines: seq<string>, rs: seq<TestResult>, n: nat)
    requires |lines| >= 6 && lines[|lines| - 3..] == Summary(rs) && |rs| == n
    ensures lines[|lines| - 3] == "\n" + Decimal(Passed(rs)) + "/" + Decimal(n) + " passed"
    ensures lines[|lines| - 2] == Decimal(Failed(rs)) + " failed tests"
  {
    SummaryCounts(rs);
    LastThree(lines, Summary(rs));
  }

  /** Lines that end with the summary of `rs` carry its verdict. */
  lemma VerdictOf(lines: seq<string>, rs: seq<TestResult>, allReturned: bool)
    requires |lines| >= 6 && lines[|lines| - 3..] == Summary(rs)
    requires (forall i :: 0 <= i < |rs| ==> rs[i].success) <==> allReturned
    ensures lines[|lines| - 1] == Banner("PASS") <==> allReturned
  {
    SummaryVerdict(rs);
    LastThree(lines, Summary(rs));
  }

  /** Every test returns when called. */
  predicate EveryTestReturned(units: seq<Unit>) {
    forall i :: 0 <= i < |units| ==> units[i].fn.outcome.Returned?
  }

  /** A completed run passes every test exactly when every test returned. */
  lemma AllReturned(units: seq<Unit>)
    requires RunAll(units).Ok?
    ensures |RunAll(units).value| == |units|
    ensures (forall i :: 0 <= i < |units| ==> RunAll(units).value[i].success)
        <==> EveryTestReturned(units)
  {
    RunAllOutcomes(units);
  }

  lemma LastThree<T>(lines: seq<T>, tail: seq<T>)
    requires |lines| >= 3 && lines[|lines| - 3..] == tail
    ensures |tail| == 3
    ensures lines[|lines| - 3] == tail[0] && lines[|lines| - 2] == tail[1] && lines[|lines| - 1] == tail[2]
  {
    assert lines[|lines| - 3..][0] == lines[|lines| - 3];
  }

  /** The last three lines of the report are the summary. */
  lemma ReportTail(units: seq<Unit>, quiet: bool, header: Option<string>, appId: string, branch: string)
    requires RunAll(units).Ok?
    ensures var lines := ReportLines(units, quiet, header, appId, branch).value;
            |lines| >= 6 && lines[|lines| - 3..] == Summary(RunAll(units).value)
  {
    var rs := RunAll(units).value;
    var top := HeaderLines(header, appId, branch) + [CollectedLine(|units|)];
    ReportLinesShape(units, quiet, header, appId, branch);
    Frame(top, Shown(rs, quiet), Summary(rs));
  }

  /** Quiet only hides the passes: the header and the counts stay the same. */
  lemma QuietKeepsCounts(units: seq<Unit>, header: Option<string>, appId: string, branch: string)
    requires RunAll(units).Ok?
    ensures var loud := ReportLines(units, false, header, appId, branch).value;
            var quiet := ReportLines(units, true, header, appId, branch).value;
            && |loud| >= 6 && |quiet| >= 6
            && loud[..3] == quiet[..3]
            && loud[|loud| - 3..] == quiet[|quiet| - 3..]
            && |loud| - |quiet| == Passed(RunAll(units).value)
  {
    var rs := RunAll(units).value;
    SelectedCount(rs, false);
    SelectedCount(rs, true);
    SumCountsPasses(rs);
    var top := HeaderLines(header, appId, branch) + [CollectedLine(|units|)];
    ReportLinesShape(units, false, header, appId, branch);
    ReportLinesShape(units, true, header, appId, branch);
    Frame(top, Shown(rs, false), Summary(rs));
    Frame(top, Shown(rs, true), Summary(rs));
  }

  /** A package without tests reports zero of zero passed and passes. */
  lemma EmptyPackage(testPackage: Obj, quiet: bool, header: Option<string>, appId: string, branch: string)
    requires Discover(testPackage) == []
    ensures Decimal(0) == "0"
    ensures Report(testPackage, quiet, header, appId, branch)
         == Ok(Join("\n", HeaderLines(header, appId, branch)
                          + ["Collected " + "0" + " tests\n", "\n" + "0" + "/" + "0" + " passed",
                             "0" + " failed tests", Banner("PASS")]))
  {
    assert Decimal(0) == "0";
    EmptyPackageWith(testPackage, quiet, header, appId, branch, "0", Banner("PASS"));
  }

  lemma EmptyPackageWith(testPackage: Obj, quiet: bool, header: Option<string>, appId: string, branch: string,
                         zero: string, pass: string)
    requires Discover(testPackage) == [] && zero == Decimal(0) && pass == Banner("PASS")
    ensures Report(testPackage, quiet, header, appId, branch)
         == Ok(Join("\n", HeaderLines(header, appId, branch)
                          + ["Collected " + zero + " tests\n", "\n" + zero + "/" + zero + " passed",
                             zero + " failed tests", pass]))
  {
    var top := HeaderLines(header, appId, branch);
    var closing := ["\n" + zero + "/" + zero + " passed", zero + " failed tests", pass];
    NoTestsSummary(zero, pass);
    NoTestsLines(quiet, header, appId, branch, zero, closing);
    assert top + ["Collected " + zero + " tests\n"] + closing
        == top + ["Collected " + zero + " tests\n", closing[0], closing[1], closing[2]];
  }

  /** The lines of a run over no tests. */
  lemma NoTestsLines(quiet: bool, header: Option<string>, appId: string, branch: string,
                     zero: string, closing: seq<string>)
    requires zero == Decimal(0) && closing == Summary([])
    ensures ReportLines([], quiet, header, appId, branch)
         == Ok(HeaderLines(header, appId, branch) + ["Collected " + zero + " tests\n"] + closing)
  {
    var none: seq<TestResult> := [];
    var units: seq<Unit> := [];
    assert RunAll(units) == Ok(none);
    assert Shown(none, quiet) == [];
    var top := HeaderLines(header, appId, branch) + [CollectedLine(0)];
    assert CollectedLine(0) == "Collected " + zero + " tests\n";
    assert top + [] == top;
  }

  /** The closing lines of a run over no tests. */
  lemma NoTestsSummary(zero: string, pass: string)
    requires zero == Decimal(0) && pass == Banner("PASS")
    ensures Summary([]) == ["\n" + zero + "/" + zero + " passed", zero + " failed tests", pass]
  {
    var none: seq<TestResult> := [];
    assert Sum(none) == 0;
  }

  /** `run(test_package, quiet, header)`; the application's id and branch are given. */
  function Report(testPackage: Obj, quiet: bool, header: Option<string>, appId: string, branch: string)
    : Result<string, Exception>
  {
    match ReportLines(Discover(testPackage), quiet, header, appId, branch)
    case Err(e) => Err(e)
    case Ok(lines) => Ok(Join("\n", lines))
  }

  // ---------------------------------------------------------------- the report as written

  /** `str` of each result with `__str__` as written: the first one that raises ends
      the generator `log.extend` consumes, and its error escapes from `run`. */
  function RenderAllAsWritten(rs: seq<TestResult>): (r: Result<seq<string>, Exception>)
    ensures r.Ok? ==> |r.value| == |rs|
    decreases |rs|
  {
    if rs == [] then Ok([])
    else
      match RenderAllAsWritten(rs[..|rs| - 1])
      case Err(e) => Err(e)
      case Ok(init) =>
        match RenderAsWritten(rs[|rs| - 1])
        case Err(e) => Err(e)
        case Ok(line) => Ok(init + [line])
  }

  /** The lines of the report with `__str__` as written. */
  function ReportLinesAsWritten(units: seq<Unit>, quiet: bool, header: Option<string>, appId: string, branch: string)
    : Result<seq<string>, Exception>
  {
    match RunAll(units)
    case Err(e) => Err(e)
    case Ok(rs) =>
      match RenderAllAsWritten(Selected(rs, quiet))
      case Err(e) => Err(e)
      case Ok(shown) => Ok(HeaderLines(header, appId, branch) + [CollectedLine(|units|)] + shown + Summary(rs))
  }

  /** `run(test_package, quiet, header)` with `__str__` as written. */
  function ReportAsWritten(testPackage: Obj, quiet: bool, header: Option<string>, appId: string, branch: string)
    : Result<string, Exception>
  {
    match ReportLinesAsWritten(Discover(testPackage), quiet, header, appId, branch)
    case Err(e) => Err(e)
    case Ok(lines) => Ok(Join("\n", lines))
  }

  /** Every one of `rs` renders without raising. */
  predicate AllRender(rs: seq<TestResult>) {
    forall i :: 0 <= i < |rs| ==> RenderAsWritten(rs[i]).Ok?
  }

  /** The rendering goes through exactly when no result's `str` raises. */
  lemma {:induction false} RenderAllAsWrittenOk(rs: seq<TestResult>)
    ensures RenderAllAsWritten(rs).Ok? <==> AllRender(rs)
    decreases |rs|
  {
    if rs != [] {
      var init := rs[..|rs| - 1];
      RenderAllAsWrittenOk(init);
      AllRenderSnoc(init, rs[|rs| - 1]);
      assert init + [rs[|rs| - 1]] == rs;
    }
  }

  lemma AllRenderSnoc(rs: seq<TestResult>, x: TestResult)
    ensures AllRender(rs + [x]) <==> AllRender(rs) && RenderAsWritten(x).Ok?
  {
    assert forall i :: 0 <= i < |rs| ==> (rs + [x])[i] == rs[i];
    assert (rs + [x])[|rs|] == x;
  }

  /** Without dict messages, rendering as written gives the corrected lines. */
  lemma {:induction false} RenderAllAsWrittenAgrees(rs: seq<TestResult>)
    requires forall i :: 0 <= i < |rs| ==> !DictMessage(rs[i])
    ensures RenderAllAsWritten(rs) == Ok(RenderAll(rs))
    decreases |rs|
  {
    if rs != [] {
      var init := rs[..|rs| - 1];
      assert forall i :: 0 <= i < |init| ==> init[i] == rs[i];
      RenderAllAsWrittenAgrees(init);
      RenderAgrees(rs[|rs| - 1]);
    }
  }

  /** `run` as written gives a report exactly when every test runs to an end and every
      shown result renders. */
  lemma ReportAsWrittenCompletes(units: seq<Unit>, quiet: bool, header: Option<string>, appId: string, branch: string)
    ensures ReportLinesAsWritten(units, quiet, header, appId, branch).Ok?
        <==> RunAll(units).Ok? && AllRender(Selected(RunAll(units).value, quiet))
  {
    if RunAll(units).Ok? {
      RenderAllAsWrittenOk(Selected(RunAll(units).value, quiet));
    }
  }

  /** When no shown result carries a dict message, `run` as written gives the
      corrected report. */
  lemma ReportAsWrittenAgrees(units: seq<Unit>, quiet: bool, header: Option<string>, appId: string, branch: string)
    requires RunAll(units).Ok?
    requires forall r :: r in Selected(RunAll(units).value, quiet) ==> !DictMessage(r)
    ensures ReportLinesAsWritten(units, quiet, header, appId, branch) == ReportLines(units, quiet, header, appId, branch)
  {
    RenderAllAsWrittenAgrees(Selected(RunAll(units).value, quiet));
  }

  /** A report as written keeps the header lines and the summary of the corrected one;
      only the shown results may differ. */
  lemma ReportAsWrittenFrame(units: seq<Unit>, quiet: bool, header: Option<string>, appId: string, branch: string)
    requires ReportLinesAsWritten(units, quiet, header, appId, branch).Ok?
    ensures RunAll(units).Ok?
    ensures var lines := ReportLinesAsWritten(units, quiet, header, appId, branch).value;
            var fixed := ReportLines(units, quiet, header, appId, branch).value;
            && |lines| == |fixed| && |lines| >= 6
            && lines[..3] == fixed[..3] && lines[|lines| - 3..] == fixed[|fixed| - 3..]
  {
    var rs := RunAll(units).value;
    var top := HeaderLines(header, appId, branch) + [CollectedLine(|units|)];
    var shown := RenderAllAsWritten(Selected(rs, quiet)).value;
    Frame(top, shown, Summary(rs));
    ReportLinesShape(units, quiet, header, appId, branch);
    Frame(top, Shown(rs, quiet), Summary(rs));
  }

  /** A package whose one test fails with `AssertionError({"key": "value"})`: `run` as
      written raises `ValueError`, where the corrected report exists. */
  lemma DictMessageStopsRun(f: Func, quiet: bool, header: Option<string>, appId: string, branch: string)
    requires f.outcome == Raised(Raise(AssertionErrorKind, [Dict([("key", "value")])]))
    ensures var pkg := Module("tests", [Attr("test_d", Function(f))]);
            && ReportAsWritten(pkg, quiet, header, appId, branch).Err?
            && ReportAsWritten(pkg, quiet, header, appId, branch).error.kind == ValueErrorKind
            && Report(pkg, quiet, header, appId, branch).Ok?
  {
    var pkg := Module("tests", [Attr("test_d", Function(f))]);
    SingleTestFound(f);
    var e := f.outcome.error;
    assert IsAssertion(e);
    AssertionIsException(e);
    var u := Free(f);
    var r := RunTest(u).value;
    RunAllOne(u);
    DictMessageCrashes(r.testName);
    assert r == TestResult(false, r.testName, Some(e));
    SelectedOne(r, quiet);
    RenderAllOne(r);
  }

  /** A package holding one test function finds just that function. */
  lemma SingleTestFound(f: Func)
    ensures Discover(Module("tests", [Attr("test_d", Function(f))])) == [Free(f)]
  {
    var pkg := Module("tests", [Attr("test_d", Function(f))]);
    assert "test_d"[..5] == FnPrefix && "test_d"[0] != '_';
    assert Visit(pkg, 0) == [Free(f)];
    assert DiscoverUpTo(pkg, 1) == DiscoverUpTo(pkg, 0) + Visit(pkg, 0);
  }

  lemma RunAllOne(u: Unit)
    requires RunTest(u).Ok?
    ensures RunAll([u]) == Ok([RunTest(u).value])
  {
    var none: seq<Unit> := [];
    assert [u][1..] == none && [u][0] == u;
    assert RunAll(none) == Ok([]);
    assert [RunTest(u).value] + [] == [RunTest(u).value];
  }

  lemma SelectedOne(r: TestResult, quiet: bool)
    requires !r.success
    ensures Selected([r], quiet) == [r]
  {
    assert [r][..0] == [];
  }

  lemma RenderAllOne(r: TestResult)
    ensures RenderAsWritten(r).Err? ==> RenderAllAsWritten([r]) == Err(RenderAsWritten(r).error)
  {
    assert [r][..0] == [];
  }

  /** The list comprehension over the found tests: runs them in order and stops at
      the first error that is not an `Exception`. */
  method RunTests(found: seq<Runnable>) returns (results: Result<seq<TestResult>, Exception>)
    ensures results == RunAll(UnitsOf(found))
  {
    ghost var units := UnitsOf(found);
    var done: seq<TestResult> := [];
    for i := 0 to |found|
      invariant |done| == i
      invariant forall j :: 0 <= j < i ==> RunTest(units[j]) == Ok(done[j])
    {
      var outcome := RunTest(UnitOf(found[i]));
      if outcome.Err? {
        RunAllFirstError(units, i);
        return Err(outcome.error);
      }
      done := done + [outcome.value];
    }
    RunAllOk(units, done);
    return Ok(done);
  }

  /** The generator over the results that `log.extend` consumes. */
  method ShownLines(results: seq<TestResult>, quiet: bool) returns (lines: seq<string>)
    ensures lines == Shown(results, quiet)
  {
    lines := [];
    for i := 0 to |results|
      invariant lines == RenderAll(Selected(results[..i], quiet))
    {
      ghost var before := results[..i];
      assert results[..i + 1] == before + [results[i]];
      SelectedSnoc(before, results[i], quiet);
      if !results[i].success || !quiet {
        RenderAllSnoc(Selected(before, quiet), results[i]);
        lines := lines + [Render(results[i])];
        assert lines == RenderAll(Selected(before + [results[i]], quiet));
      } else {
        assert Selected(before + [results[i]], quiet) == Selected(before, quiet);
      }
    }
    assert results[..|results|] == results;
  }

  /** `sum(test_results)` */
  method CountPasses(results: seq<TestResult>) returns (passed: nat)
    ensures passed == Sum(results) && passed == Passed(results)
  {
    passed := 0;
    for i := 0 to |results|
      invariant passed == Sum(results[..i])
    {
      assert results[..i + 1][..i] == results[..i];
      passed := RAdd(results[i], passed);
    }
    assert results[..|results|] == results;
    SumCountsPasses(results);
  }

  lemma ReportOfResults(testPackage: Obj, quiet: bool, header: Option<string>, appId: string, branch: string,
                        rs: seq<TestResult>)
    requires RunAll(Discover(testPackage)) == Ok(rs)
    ensures Report(testPackage, quiet, header, appId, branch)
         == Ok(Join("\n", HeaderLines(header, appId, branch) + [CollectedLine(|rs|)] + Shown(rs, quiet) + Summary(rs)))
  {
  }

  /** A run that does not complete makes `run` raise, as written or corrected, the
      error of the first test whose error is not an `Exception`. */
  lemma ReportOfError(testPackage: Obj, quiet: bool, header: Option<string>, appId: string, branch: string,
                      e: Exception)
    requires RunAll(Discover(testPackage)) == Err(e)
    ensures Report(testPackage, quiet, header, appId, branch) == Err(e)
    ensures ReportAsWritten(testPackage, quiet, header, appId, branch) == Err(e)
    ensures exists i :: 0 <= i < |Discover(testPackage)| && Discover(testPackage)[i].fn.outcome == Raised(e)
                        && !IsException(e) && forall j :: 0 <= j < i ==> RunTest(Discover(testPackage)[j]).Ok?
  {
    RunAllError(Discover(testPackage));
  }

  /** Conversely, the first test that raises something other than an `Exception`
      decides the error of `run`, whatever the tests after it do. */
  lemma ReportOfFirstError(testPackage: Obj, quiet: bool, header: Option<string>, appId: string, branch: string,
                           i: nat)
    requires i < |Discover(testPackage)| && Discover(testPackage)[i].fn.outcome.Raised?
    requires !IsException(Discover(testPackage)[i].fn.outcome.error)
    requires forall j :: 0 <= j < i ==> RunTest(Discover(testPackage)[j]).Ok?
    ensures Report(testPackage, quiet, header, appId, branch) == Err(Discover(testPackage)[i].fn.outcome.error)
    ensures ReportAsWritten(testPackage, quiet, header, appId, branch) == Err(Discover(testPackage)[i].fn.outcome.error)
  {
    RunAllFirstError(Discover(testPackage), i);
  }

  /** The first three lines of the log: the two banners and the number of tests. */
  method Preamble(header: Option<string>, appId: string, branch: string, n: nat) returns (log: seq<string>)
    ensures log == HeaderLines(header, appId, branch) + [CollectedLine(n)]
  {
    log := [];
    var title := if header.None? then DefaultHeader else header.value;
    log := log + [Banner(title)];
    log := log + [Banner(appId + ":" + branch)];
    log := log + [CollectedLine(n)];
  }

  /** The last three lines of the log. */
  method Closing(results: seq<TestResult>) returns (lines: seq<string>)
    ensures lines == Summary(results)
  {
    var n := |results|;
    var passed := CountPasses(results);
    var failed := n - passed;
    lines := ["\n" + Decimal(passed) + "/" + Decimal(n) + " passed"];
    lines := lines + [Decimal(failed) + " failed tests"];
    var verdict := if failed == 0 then "PASS" else "FAIL";
    lines := lines + [Banner(verdict)];
  }

  /** `run`: builds the log line by line, as the function does. */
  method Run(testPackage: Obj, quiet: bool, header: Option<string>, appId: string, branch: string)
    returns (report: Result<string, Exception>)
    ensures report == Report(testPackage, quiet, header, appId, branch)
  {
    var found := FindTests(testPackage);
    var log := Preamble(header, appId, branch, |found|);
    var outcome := RunTests(found);
    if outcome.Err? {
      ReportOfError(testPackage, quiet, header, appId, branch, outcome.error);
      return Err(outcome.error);
    }
    var results := outcome.value;
    var shown := ShownLines(results, quiet);
    log := log + shown;
    var closing := Closing(results);
    log := log + closing;
    ReportOfResults(testPackage, quiet, header, appId, branch, results);
    report := Ok(Join("\n", log));
  }
}
