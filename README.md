# anvil_testing core, modelled in Dafny

anvil_testing is a small test runner for Anvil server code. Its `run` walks a test
package and collects `test_*` functions and the `test_*` methods of `Test*` classes,
binding each method to a fresh instance of its class. It then runs every test and
turns each outcome into a `TestResult`. The report is a list of lines: a centred
header, the app identity, the collected count, the rendered results (only the
failures when quiet), the pass/fail counts and a final PASS or FAIL banner. Beside
the runner, `helpers.py` gives fixtures for test modules:
- `_verify_column` and `verify_table` check a data table's columns;
- `raises` asserts that a block raises a given exception class;
- `gen_int` and `gen_str` make pseudo-random values from the clock;
- the test page reads a `quiet` query flag.

The project models these in Dafny:

| file | module | what it holds |
|---|---|---|
| `options.dfy` | `Options` | `Option` and `Result` |
| `text.dfy` | `Text` | the Python `str` operations the core uses: `split`, `split(...)[-1]`, `replace`, `join`, `str.format` centring, `lower` |
| `textwrap.dfy` | `TextWrap` | `textwrap.indent`, with and without a predicate |
| `numerals.dfy` | `Numerals` | `str(int)`, `int(str)`, `hex`, `s[::-1]`, slicing |
| `pyerrors.dfy` | `PyErrors` | exception classes with their bases, `isinstance`, the arguments an exception holds and `str()` of it, `str`/`repr` of the arguments |
| `discovery.dfy` | `Discovery` | `_find_tests`: a spec function over a namespace tree, and the imperative search that allocates one instance per test method |
| `results.dfy` | `Results` | `TestResult`, its `__str__` (both as written and corrected), `__add__`/`__radd__` and `sum` |
| `runner.dfy` | `Runner` | `_format_test_name`, `_run_test`, and `run` as a spec function and as a method that builds the log step by step |
| `helpers.dfy` | `Helpers` | `_verify_column`, `verify_table`, `raises` (both as written and corrected), `gen_int`, `gen_str`, the quiet flag |

Python reflection is replaced by an explicit tree. A namespace (package, module or
class) lists its attributes in `dir()` order, each with the object `getattr` returns.
A function carries its `__module__`, its `__qualname__` and the outcome of calling
it: it returns, or it raises an exception. An exception is its class, with the base
classes, its argument list and its `str()`. `PyErrors.Raise` builds an exception of a
class that keeps `BaseException.__str__`, and `PyErrors.KeyError` one that shows the
`repr` of its key; a class with another `__str__` brings its own text.

For a failed result whose first assertion argument is a non-empty dict, `TestResult.__str__` unpacks each key into two names, so it raises `ValueError` as soon as a key is not exactly two characters long (see Findings). An empty dict is falsy and gives the default message. `Runner.Report`,
`Runner.ReportLines` and `Runner.Run` describe `run` with `__str__` corrected, and
`Runner.ReportAsWritten` describes `run` as written. The two give the same report
whenever no shown result carries a dict message.

## Model

| member | source | states |
|---|---|---|
| Discovery.DiscoverFlat | server_code/auto.py:13-44 | In a module or class with no sub-namespaces, discovery gives exactly `FlatTests` of its attributes: one unit per public `test_*` attribute holding a function, in `dir()` order, bound to the class when the parent is a class. |
| Discovery.DiscoverUpToFlat | server_code/auto.py:17-42 | The same equality for the first `i` attributes of the loop. |
| Discovery.Discover | server_code/auto.py:13-44 | `_find_tests(parent)` without the instances: for a module or class, what its attributes contribute, in `dir()` order; nothing for another object. |
| Discovery.DiscoverUpTo | server_code/auto.py:15-43 | The list after the first `i` passes of the loop. |
| Discovery.Visit | server_code/auto.py:18-42 | One pass of the loop: a `_` name gives nothing; a module whose name extends the parent's and a `Test*` class give their own tests; a `test_*` function gives a unit, bound in a class; anything else gives nothing. |
| Discovery.FlatTests | server_code/auto.py:31-42 | The reference filter for flat namespaces: the public `test_*` functions among the attributes, front to back. |
| Discovery.FlatTestsMembers | server_code/auto.py:31-42 | A unit is in `FlatTests` exactly when some attribute is a public test function that gives it. |
| Discovery.FlatTestsConcat | server_code/auto.py:17-42 | `FlatTests` over two runs of attributes is the first run's tests followed by the second's. |
| Discovery.DiscoverSplit | server_code/auto.py:17-44 | For every module or class, the tests of attributes `a + b` are the tests of `a` followed by those of `b`; this holds at every depth of nesting. |
| Discovery.DiscoverUpToSplit | server_code/auto.py:17-44 | The loop over `a + b`, after `|a| + k` passes, has the tests of `a` followed by those of the first `k` attributes of `b`. |
| Discovery.DiscoverUpToPrefix | server_code/auto.py:17-42 | Two namespaces of the same kind and name with the same first `i` attributes give the same list after `i` passes. |
| Discovery.VisitSame | server_code/auto.py:18-42 | What a pass contributes depends only on the attribute and on the kind and name of its namespace. |
| Discovery.DiscoverOne | server_code/auto.py:17-42 | A namespace with one attribute: a `_` name gives nothing; a module gives its own tests exactly when its name extends the parent's; a class gives its own tests exactly when its name starts with `Test`; a function gives a unit exactly when it is a public `test_*` one; a plain value gives nothing. |
| Discovery.NestedPackageExample | server_code/auto.py:17-44 | Walking a package finds exactly the test method of `TestRaises` in the `tests.helpers` submodule, then the package-level `test_top`, in that order. It skips a `_` method, a foreign module `anvil`, a plain value and a class not named `Test*`. |
| Discovery.FindTests | server_code/auto.py:13-44 | The search returns exactly the units of `Discover`, in order. Every bound method has its own instance, freshly allocated during the search. |
| Discovery.VisitAttr | server_code/auto.py:18-42 | One attribute contributes what `Visit` gives for it, from the four branches. A `test_*` method of a class gets a new instance of that class. |
| Discovery.UnitsOfConcat | server_code/auto.py:23-27 | Extending the found list with a sub-result appends that sub-result's units. |
| Discovery.Instance.constructor | server_code/auto.py:37 | A new class instance records which class made it. |
| Runner.FormatTestNameInverse | server_code/auto.py:47-50 | The name is recoverable. The part before `::` turns back, `/` for `.`, into the piece of `__module__` after the last `tests.`, and that piece is a suffix of the module name. The part after `::`, with `::` collapsed back to `.`, is `__qualname__`. |
| Runner.FormatTestNameOfMethod | server_code/auto.py:47-50 | For a module `pre + "tests." + path` with `tests.` occurring only there, and a qualname `Cls.meth`, the name is `path` with `/` for `.`, then `::Cls::meth`. |
| Runner.FormatTestName | server_code/auto.py:47-50 | `_format_test_name`: the module path after the last `tests.`, `/` for `.`, then `::`, then the qualname with `::` for `.`. |
| Text.LastPiece | server_code/auto.py:49 | `s.split(sep)[-1]` is a suffix of `s` that does not contain `sep`. It is either all of `s` or preceded by `sep`. |
| Text.LastPieceAfterOnly | server_code/auto.py:49 | When `sep` occurs once, the last piece is the text after it. |
| Text.LastPieceAbsent | server_code/auto.py:49 | Without `sep`, the last piece is the whole string. |
| Text.ReplaceRoundTrip | server_code/auto.py:50 | Replacing `.` by `/` and back gives the original when `/` did not occur. |
| Text.ReplaceChars | server_code/auto.py:50 | After replacement the replaced character is gone, unless the replacement contains it, and every character comes from the input or the replacement. |
| Text.CollapseRoundTrip | server_code/auto.py:50 | Collapsing `::` back to `.` undoes `qualname.replace('.', '::')` when the qualname has no `:`. |
| Text.SplitAtColonsJoin | server_code/auto.py:50 | Cutting `module::qualname` at its first `::` gives back the two halves when the first has no `:`. |
| Runner.RunTest | server_code/auto.py:132-148 | `_run_test` returns a result exactly when the test returns or raises an `Exception`, and anything else propagates. Success holds exactly when the test returned. A failure carries the raised error, and success agrees with the absence of an error. |
| Runner.RunTestName | server_code/auto.py:134 | The result's name is `_format_test_name(test, "tests")`, and the qualname can be read back from it. |
| Runner.RunAll | server_code/auto.py:176 | A completed comprehension has one result per unit. |
| Runner.RunAllCompletes | server_code/auto.py:176 | The comprehension gives results exactly when no test lets a non-`Exception` escape. |
| Runner.RunAllValues | server_code/auto.py:176 | A completed comprehension holds, at each index, that unit's own result. |
| Runner.RunAllError | server_code/auto.py:176 | A comprehension that does not complete raises the error of the first test that lets a non-`Exception` escape. |
| Runner.RunAllOk | server_code/auto.py:176 | Per-unit results put together are the result list. |
| Runner.RunAllFirstError | server_code/auto.py:176 | The first unit whose error escapes decides the error of the whole run. |
| Runner.RunAllOutcomes | server_code/auto.py:132-148 | In a completed run, result `i` passed exactly when test `i` returned. |
| Runner.RunTests | server_code/auto.py:176 | The loop that runs the found tests computes `RunAll` of their units. |
| Results.IndentValues | server_code/auto.py:59-70 | The success indent is two spaces, the failure indent is `"> "` and the error indent is eight spaces. |
| Results.RenderSuccess | server_code/auto.py:74-77 | A passing result whose name holds no newline renders as `"  Pass: " + name`. |
| Results.Render | server_code/auto.py:72-120 | `__str__` with the dict branch corrected: a pass is indented by two spaces, a failure is the failure text of the error message. |
| Results.RenderAsWritten | server_code/auto.py:72-120 | `__str__` as written: as `Render`, except that the dict branch unpacks each key and its `ValueError` escapes. |
| Results.ErrorText | server_code/auto.py:80-113 | The message under a failure: the default without an error, the assertion's message, `Error during test: {kind}: {str(e)}` for another `Exception`, and `Missed how to handle this error: ...` otherwise; the dict branch is the corrected one. |
| Results.ErrorTextAsWritten | server_code/auto.py:80-113 | The message as written: the dict branch can raise. |
| Results.AssertionText | server_code/auto.py:83-103 | The message of an assertion, by the type of its first argument: the default when falsy, `str(e)` for a string, one line per item for a list or set, one per entry for a dict (the corrected dict branch), `str` of the argument otherwise. |
| Results.FailureText | server_code/auto.py:115-120 | The failure block: `Fail: name`, a newline and the message behind eight spaces, all behind `> `. |
| Results.KeyErrorMessage | server_code/auto.py:105-108 | A test that raises `KeyError(key)` shows `Error during test: KeyError: 'key'`, the `repr` that `KeyError.__str__` gives. |
| PyErrors.KeyErrorIsException | server_code/auto.py:83-109 | A `KeyError` is an `Exception` and not an assertion. |
| Results.FailureLayout | server_code/auto.py:115-120 | For a name without a newline, a failure block is `"> Fail: " + name`, a newline, then the error text with every line prefixed by `">"` and nine spaces. |
| Results.FailureLinesMarked | server_code/auto.py:115-120 | Every line of a failure block starts with `"> "`. |
| Results.RenderFailure | server_code/auto.py:79-120 | A failing result renders as the failure layout of its error text, and every line of it starts with `"> "`. |
| Results.FramedMessage | server_code/auto.py:115-120 | Indenting a one-line head plus an indented body with a second prefix equals the outer prefix, the head, and the body indented by both prefixes. |
| Results.DefaultMessageCases | server_code/auto.py:80-90 | No error, an assertion without arguments, or an empty first argument gives `"Sorry, no info given."`. The list `[""]` is truthy, so it gives the empty text. |
| Results.ListMessageLines | server_code/auto.py:95-96 | A list argument without newlines in its items gives its items, one per line. Splitting the text at newlines returns the list. |
| Results.RenderAgrees | server_code/auto.py:72-120 | As written, `__str__` agrees with the corrected rendering for every result whose first assertion argument is not a dict. |
| Results.DictMessageCrashes | server_code/auto.py:98-99 | As written, a dict argument `{"key": "value"}` makes `__str__` raise `ValueError`. The corrected version renders `key: value`. |
| Results.DictMessageTwoCharKey | server_code/auto.py:98-99 | As written, a two-character key is unpacked into its characters, so `{"ab": "value"}` renders `a: b`. |
| Results.DictLinesAsWritten | server_code/auto.py:99 | The lines exist exactly when every key has two characters, one line per entry; otherwise the error is a `ValueError`. |
| Results.UnpackPair | server_code/auto.py:99 | Unpacking a key string into `key, value` succeeds exactly when it has two characters, giving its two characters; otherwise it is a `ValueError` (CPython's "too many" or "not enough values to unpack"). |
| Results.AssertionTextAsWritten | server_code/auto.py:83-103 | The assertion branch as written fails exactly when the first argument is a non-empty dict with a key that is not two characters long, and then with a `ValueError`. |
| Results.Sum | server_code/auto.py:122-129 | `sum(results)` is at most the number of results. |
| Results.SumCountsPasses | server_code/auto.py:122-129 | `sum(results)` is the number of successful results. |
| Results.SumPermutation | server_code/auto.py:122-129 | `sum(results)` does not depend on the order of the results. |
| Results.SumConcat | server_code/auto.py:122-129 | `sum` over two lists put together is the sum of the two sums. |
| Results.SumStep | server_code/auto.py:122-129 | Each step of the fold adds `int(success)` of the next result. |
| Results.Add | server_code/auto.py:122-123 | `result + other` adds `int(result.success)` to `other`. |
| Results.RAdd | server_code/auto.py:125-129 | `other + result`: `int(result.success)` when `other` is 0, otherwise `result + other`. |
| Results.AllPassed | server_code/auto.py:184-188 | `sum` equals the number of results exactly when every result succeeded. |
| Runner.Banner | server_code/auto.py:188-189 | A banner is 50 characters wide, or the text plus its two spaces when that is longer. |
| Text.Center | server_code/auto.py:164 | Centring keeps a string that is too long. Otherwise the result has the target width, with the text in the middle and the odd fill character on the right. |
| Runner.BannersDiffer | server_code/auto.py:188-189 | The PASS and FAIL banners are different lines. |
| Results.SumCountsFailures | server_code/auto.py:184-185 | The number of results minus `sum(results)` is the number of failed results. |
| Runner.SummaryCounts | server_code/auto.py:184-187 | The summary is three lines: first `"\n{passed}/{n} passed"`, with passed the number of successes, then `"{failed} failed tests"`, with failed the number of failures. |
| Runner.SummaryVerdict | server_code/auto.py:184-189 | The third summary line is the PASS banner exactly when every result succeeded. |
| Runner.SelectedCount | server_code/auto.py:179-181 | Quiet shows one result per failure. Loud shows every result. |
| Runner.SelectedLoud | server_code/auto.py:179-181 | Without quiet, every result is shown, in order. |
| Runner.SelectedQuiet | server_code/auto.py:179-181 | With quiet, exactly the failing results are shown. |
| Runner.Selected | server_code/auto.py:179-181 | The results the generator keeps: those that failed, and every one when not quiet. |
| Runner.Failures | server_code/auto.py:179-181 | The reference filter: the failed results, front to back. |
| Runner.FailuresConcat | server_code/auto.py:179-181 | The failures of two runs of results are the first run's followed by the second's. |
| Runner.SelectedQuietInOrder | server_code/auto.py:179-181 | With quiet, the results shown are exactly the failures, in the order the tests ran. |
| Runner.RenderAll | server_code/auto.py:180 | There is one rendered line per shown result. |
| Runner.ReportLines | server_code/auto.py:158-189 | The log exists exactly when running the tests completes. |
| Runner.HeaderLines | server_code/auto.py:160-168 | The header banner (`Anvil Testing` when none is given) and the `app_id:branch` banner. |
| Runner.Summary | server_code/auto.py:184-189 | The three closing lines: passes out of the total, failures, and the PASS or FAIL banner. |
| Runner.Report | server_code/auto.py:151-195 | `run` with `__str__` corrected: the log joined with newlines, or the error that escaped a test. |
| Runner.ReportTail | server_code/auto.py:184-189 | The last three lines of the log are the summary. |
| Runner.ReportCounts | server_code/auto.py:171-187 | In a completed log, the third-to-last line gives the number of passed results out of the number collected. The second-to-last gives the number of failed results. |
| Runner.AllReturned | server_code/auto.py:132-148 | A completed run has every result successful exactly when every discovered test returned. |
| Runner.ReportVerdict | server_code/auto.py:171-189 | A completed log's last line is the PASS banner exactly when every discovered test returned. |
| Runner.QuietKeepsCounts | server_code/auto.py:158-189 | Quiet and loud reports share their first three and last three lines. They differ in length by exactly the number of passes. |
| Runner.EmptyPackage | server_code/auto.py:158-195 | A package without tests reports `Collected 0 tests`, `0/0 passed`, `0 failed tests` and PASS. |
| Runner.ReportOfError | server_code/auto.py:176 | When the tests do not run to an end, `run`, as written and corrected, raises the error of the first test whose error is not an `Exception`, and all tests before it ran to an end. |
| Runner.ReportOfFirstError | server_code/auto.py:176 | Conversely, the first test that raises something other than an `Exception` decides the error of `run`, as written and corrected, whatever the later tests do. |
| Runner.ShownLines | server_code/auto.py:179-181 | The loop that extends the log computes the filtered results, rendered with the corrected `__str__`. |
| Runner.CountPasses | server_code/auto.py:184 | The counting loop yields `sum(results)`, the number of successes. |
| Runner.Preamble | server_code/auto.py:158-173 | The first log lines are the header banner, the identity banner and `Collected {n} tests\n`. |
| Runner.Closing | server_code/auto.py:184-189 | The closing lines are the summary. |
| Runner.Run | server_code/auto.py:151-195 | `run` with `__str__` corrected builds, step by step, exactly the report of the spec function `Report`. |
| Runner.RenderAllAsWritten | server_code/auto.py:179-181 | `str` of each shown result as written; the first that raises ends the generator with its error. |
| Runner.RenderAllAsWrittenOk | server_code/auto.py:179-181 | The rendering goes through exactly when every result's `str` does. |
| Runner.RenderAllAsWrittenAgrees | server_code/auto.py:179-181 | Without dict messages, the lines rendered as written are the corrected ones. |
| Runner.ReportLinesAsWritten | server_code/auto.py:158-189 | The log of `run` as written, with the error that escapes from a test or from a shown result's `str`. |
| Runner.ReportAsWritten | server_code/auto.py:151-195 | `run` as written: the log joined with newlines, or the error that escaped. |
| Runner.ReportAsWrittenCompletes | server_code/auto.py:176-181 | `run` as written returns a report exactly when every test runs to an end and every shown result renders. |
| Runner.ReportAsWrittenAgrees | server_code/auto.py:158-189 | When no shown result carries a dict message, `run` as written gives the corrected log. |
| Runner.ReportAsWrittenFrame | server_code/auto.py:158-189 | A log as written has as many lines as the corrected one and the same first three and last three lines. |
| Runner.DictMessageStopsRun | server_code/auto.py:98-99 | A package whose one test raises `AssertionError({"key": "value"})` makes `run` as written raise `ValueError`, in quiet and loud mode alike; the corrected report exists. |
| Helpers.VerifyColumn | server_code/helpers.py:7-21 | The scan with its early return computes `ColumnVerdict`. |
| Helpers.ColumnVerdict | server_code/helpers.py:15-21 | `_verify_column` as a scan: the first column with the name decides, and without one the result is the not-found message. |
| Helpers.ColumnVerdictFirstMatch | server_code/helpers.py:15-20 | The first column with the name decides. Its result is `""` when that column's type matches, and otherwise a message naming the column, the expected type and the actual type. |
| Helpers.ColumnVerdictMissing | server_code/helpers.py:21 | Without a column of that name, the result is `"column '{name}' not found"`. |
| Helpers.ColumnVerdictEmpty | server_code/helpers.py:15-21 | The result is `""` exactly when the first column with the name has the expected type. |
| Helpers.FirstNamedUnique | server_code/helpers.py:15-16 | There is only one first column with a given name. |
| Helpers.FirstIndex | server_code/helpers.py:15-16 | If some column has the name, a first one does. |
| Helpers.ErrorsFor | server_code/helpers.py:42-46 | At most one message per expected column. |
| Helpers.ErrorsForConcat | server_code/helpers.py:43-46 | Messages come in the order of the expected columns. Those for two runs of columns are the first run's messages followed by the second's. |
| Helpers.ErrorsForEmpty | server_code/helpers.py:43-48 | No message is collected exactly when every expected column verifies. |
| Helpers.ErrorsForMessages | server_code/helpers.py:44-46 | Every collected message is the non-empty result for one of the expected columns. |
| Helpers.VerifyTable | server_code/helpers.py:24-51 | The loop computes `TableVerdict`. |
| Helpers.TableVerdict | server_code/helpers.py:36-51 | `verify_table` over a registry of tables: the not-found message, the error list, or `False`. |
| Helpers.TableVerdictCases | server_code/helpers.py:36-51 | An unknown table gives `"Table '{name}' not found."`. A known table gives `False` exactly when every expected column verifies. Otherwise it gives the non-empty list of messages, at most one per expected column. |
| Helpers.RaisesAsWrittenRaised | server_code/helpers.py:126-139 | As written: an exception of the expected class is absorbed. Another assertion is re-raised unless its text is the default "not raised" text. Any other `Exception` becomes `"{Kind} raised, expected {Name}"`. Anything else passes through. |
| Helpers.RaisesAsWritten | server_code/helpers.py:122-142 | `raises` as written: what escapes the `with` block, given what the block did. |
| Helpers.Raises | server_code/helpers.py:111-142 | `raises` corrected: a completing block fails with `{Name} not raised.` (or the message), and other assertions escape. |
| Helpers.RaisesAsWrittenCustomMessage | server_code/helpers.py:122-135 | As written, a block that completes under a custom message fails with `AssertionError(msg)`, provided the message is not the default `{expected} not raised.` text and `expected` is not `AssertionError` or one of its bases; otherwise a handler swallows the assertion. |
| Helpers.RaisesAsWrittenSwallowsOwnAssertion | server_code/helpers.py:122-135 | As written, a block that completes without a message lets nothing escape. |
| Helpers.RaisesSpec | server_code/helpers.py:111-142 | Corrected `raises`: nothing escapes exactly when the block raised an instance of the expected class. What escapes is an assertion, or the block's own exception unchanged. |
| Helpers.RaisesAgree | server_code/helpers.py:126-139 | As written and corrected agree whenever the block raises something other than an unexpected assertion. |
| Helpers.RaisesLookupErrorExample | server_code/helpers.py:122-135 | `with raises(LookupError): pass` lets nothing escape as written. Corrected, it fails with `"LookupError not raised."`. |
| Helpers.GenIntBound | server_code/helpers.py:145-148 | `gen_int(n)` fails only for `n == 0`, with `ZeroDivisionError`. Otherwise it lies below `10**n - 1` and has at most `n` digits. |
| Helpers.Seed | server_code/helpers.py:147 | The clock reading plus the reversed digits of a second reading. |
| Helpers.GenInt | server_code/helpers.py:145-148 | `gen_int(n)`: the seed modulo `10**n - 1`, or `ZeroDivisionError` when that is 0. |
| Helpers.GenStr | server_code/helpers.py:151-153 | `gen_str(n)`: `hex(gen_int())[2:n + 2]`. |
| Helpers.GenStrSpec | server_code/helpers.py:151-153 | `gen_str(n)` is the first `n` hexadecimal digits of `gen_int()`, or all of them if there are fewer. There are at most nine. |
| Helpers.GenStrLength | server_code/helpers.py:151-153 | `gen_str(n)` has at most `n` characters, and at most nine. |
| Helpers.HexDigitsBound | server_code/helpers.py:145-153 | A value of `gen_int()` has at most nine hexadecimal digits. |
| Helpers.QuietParamSpec | server_code/helpers.py:193-195 | Quiet holds exactly when the `quiet` parameter is present and reads `1` or `true` in lower case. So the case of the value does not matter. |
| Helpers.QuietParam | server_code/helpers.py:193-195 | The `quiet` flag of the test page from its query parameters. |

## Left out

- Python reflection (`dir`, `getattr`, `inspect.*`) is replaced by the namespace tree. The tree lists attributes in the order given; it does not check that they are sorted.
- The namespace tree is finite and acyclic. A package that reaches itself through a submodule attribute is not modelled.
- A test class's constructor is modelled only as allocating an instance. Whatever else its `__init__` does, and any exception it raises during discovery, is not modelled.
- `app.id` and `app.branch` are parameters of `run`. The `print` of the report and the route registration, debug-tag gate, `get_app_origin` and `HttpResponse` of `create_test_webpage` are platform I/O and are left out.
- `temp_row` and `temp_writes` wrap the proprietary table and transaction API. They are not part of this model.
- `time.time_ns()` is replaced by the two clock readings `t1` and `t2` that `gen_int` takes.
- Helpers.GenInt: `n_digits` is a natural number. A negative `n_digits` turns the modulus into a float in Python, and that is not modelled.
- Helpers.GenStrSpec: only `n >= 0` is covered. For a negative `n` the slice counts from the end. That case is in `GenStr` but no lemma covers it.
- TextWrap.Indent splits lines only at `"\n"`. Python's `textwrap.indent` splits with `splitlines(True)`, which also breaks at `\r`, `\r\n`, `\v`, `\f`, `\x1c`, `\x1d`, `\x1e`, `\x85`, `\u2028` and `\u2029`; text holding those is not modelled. A line counts as blank when it holds only ASCII whitespace and the separators `\x1c` to `\x1f`; other Unicode spaces are not covered, and neither is `lower` beyond ASCII.
- `repr` of strings quotes with single quotes and does no escaping.
- List and set assertion arguments hold strings, and dict arguments hold string keys and values; `str()` of non-string keys and values in the f-string at `server_code/auto.py:99` is not modelled. The items of a set come in a given iteration order.
- An argument that is a list of non-strings makes Python's `"\n".join` raise. That is not modelled.
- Column records always have a name and a type. A malformed `expected_columns` entry without them raises `KeyError` in Python; that is not modelled.
- Query values of the test page are strings. Any other type would be stringified first. A present but empty `quiet` is treated as not quiet, just as the source passes the empty string through as a falsy flag.
- The text of `ZeroDivisionError` and of the unpacking `ValueError` follows CPython 3.10. The model relies on their kinds only.
- Runner.ReportLines, Runner.ShownLines and Runner.Run: these build the log with the corrected `__str__`. `run` as written is Runner.ReportAsWritten. Runner.ReportAsWrittenAgrees proves the two equal when no shown result carries a dict message, and Runner.DictMessageStopsRun shows `run` as written raising otherwise.
- An assertion whose only argument is `[""]` renders with an empty message, since the list is truthy and joins to the empty text (Results.DefaultMessageCases).
- The tests in `server_code/_testing/_tests/helpers.py:24-27` expect `len(gen_str(5)) == 5`. That holds only when `gen_int()` has at least five hexadecimal digits, so the model proves only the upper bound: see Helpers.GenStrSpec.

## Findings

| source | as written | input that shows it | evidently intended | confidence | as-written member | corrected member |
|---|---|---|---|---|---|---|
| server_code/auto.py:98-99 | `for key, value in error_arg` iterates the dict's keys and unpacks each key string | `AssertionError({"key": "value"})` makes `__str__` raise `ValueError`, and `{"ab": "value"}` renders `a: b` | one line `key: value` per entry, via `error_arg.items()` | high, not executed | Results.RenderAsWritten (Results.DictMessageCrashes, Results.DictMessageTwoCharKey, Runner.ReportAsWritten, Runner.DictMessageStopsRun) | Results.Render (Results.RenderAgrees, Results.DictMessageCrashes, Runner.Report, Runner.ReportAsWrittenAgrees) |
| server_code/helpers.py:122-135 | the "not raised" assertion is raised inside the `try`. Its text equals the string the `AssertionError` handler swallows | `with raises(LookupError): pass` lets nothing escape | a completing block fails with `"{Name} not raised."`, and other assertions are re-raised | high, not executed | Helpers.RaisesAsWritten (Helpers.RaisesAsWrittenSwallowsOwnAssertion, Helpers.RaisesLookupErrorExample) | Helpers.Raises (Helpers.RaisesSpec, Helpers.RaisesLookupErrorExample) |
