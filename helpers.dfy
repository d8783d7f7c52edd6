/** The fixture-side helpers a test module uses: checking a data table's columns,
    `raises`, the clock-driven random values, and the quiet flag of the test page. */
module Helpers {
  import opened Options
  import opened Text
  import opened Numerals
  import opened PyErrors

  // ---------------------------------------------------------------------------
  // Column and table checks
  // ---------------------------------------------------------------------------

  /** One entry of `list_columns()`: a column's name and its type. */
  datatype Column = Column(name: string, columnType: string)

  function NotFoundMessage(name: string): string {
    "column '" + name + "' not found"
  }

  function TypeMismatchMessage(name: string, expectedType: string, actualType: string): string {
    "column '" + name + "' must be of type '" + expectedType + "' not '" + actualType + "'"
  }

  /** What `_verify_column` returns: the first column carrying the name decides;
      the empty string means the column is there with the expected type. */
  function ColumnVerdict(columns: seq<Column>, name: string, columnType: string): string
    decreases |columns|
  {
    if columns == [] then NotFoundMessage(name)
    else if columns[0].name == name then
      (if columns[0].columnType == columnType then ""
       else TypeMismatchMessage(name, columnType, columns[0].columnType))
    else ColumnVerdict(columns[1..], name, columnType)
  }

  /** `_verify_column`: a scan of the columns that returns at the first name match. */
  method VerifyColumn(tableColumns: seq<Column>, expectedName: string, expectedType: string)
    returns (r: string)
    ensures r == ColumnVerdict(tableColumns, expectedName, expectedType)
  {
    for i := 0 to |tableColumns|
      invariant ColumnVerdict(tableColumns[i..], expectedName, expectedType)
             == ColumnVerdict(tableColumns, expectedName, expectedType)
    {
      var column := tableColumns[i];
      if column.name == expectedName {
        if column.columnType == expectedType {
          return "";
        } else {
          return TypeMismatchMessage(expectedName, expectedType, column.columnType);
        }
      }
      assert tableColumns[i..][1..] == tableColumns[i + 1..];
    }
    assert tableColumns[|tableColumns|..] == [];
    return NotFoundMessage(expectedName);
  }

  /** The column at `i` is the first one named `name`. */
  predicate FirstNamed(columns: seq<Column>, name: string, i: nat) {
    i < |columns| && columns[i].name == name
    && forall j :: 0 <= j < i ==> columns[j].name != name
  }

  /** The first column with the name decides: "" when its type is the expected one,
      otherwise a message naming the column, the expected and the actual type. */
  lemma {:induction false} ColumnVerdictFirstMatch(columns: seq<Column>, name: string, columnType: string, i: nat)
    requires FirstNamed(columns, name, i)
    ensures ColumnVerdict(columns, name, columnType)
         == if columns[i].columnType == columnType then ""
            else TypeMismatchMessage(name, columnType, columns[i].columnType)
    decreases i
  {
    if i > 0 {
      assert columns[0].name != name;
      assert FirstNamed(columns[1..], name, i - 1) by {
        forall j | 0 <= j < i - 1 ensures columns[1..][j].name != name {
          assert columns[1..][j] == columns[j + 1];
        }
      }
      ColumnVerdictFirstMatch(columns[1..], name, columnType, i - 1);
    }
  }

  /** No column with the name: the "not found" message. */
  lemma {:induction false} ColumnVerdictMissing(columns: seq<Column>, name: string, columnType: string)
    requires forall j :: 0 <= j < |columns| ==> columns[j].name != name
    ensures ColumnVerdict(columns, name, columnType) == NotFoundMessage(name)
    decreases |columns|
  {
    if columns != [] {
      assert columns[0].name != name;
      ColumnVerdictMissing(columns[1..], name, columnType);
    }
  }

  /** `_verify_column` returns "" exactly when the first column with the name has
      the expected type. */
  lemma ColumnVerdictEmpty(columns: seq<Column>, name: string, columnType: string)
    ensures ColumnVerdict(columns, name, columnType) == ""
        <==> exists i: nat :: FirstNamed(columns, name, i) && columns[i].columnType == columnType
  {
    if exists j :: 0 <= j < |columns| && columns[j].name == name {
      var j :| 0 <= j < |columns| && columns[j].name == name;
      var i := FirstIndex(columns, name, j);
      ColumnVerdictFirstMatch(columns, name, columnType, i);
      forall k: nat | FirstNamed(columns, name, k) ensures k == i {
        FirstNamedUnique(columns, name, i, k);
      }
    } else {
      ColumnVerdictMissing(columns, name, columnType);
      assert NotFoundMessage(name)[0] == 'c';
    }
  }

  lemma FirstNamedUnique(columns: seq<Column>, name: string, i: nat, k: nat)
    requires FirstNamed(columns, name, i) && FirstNamed(columns, name, k)
    ensures i == k
  {
  }

  /** The index of the first column named `name`, given one at `j`. */
  lemma {:induction false} FirstIndex(columns: seq<Column>, name: string, j: nat) returns (k: nat)
    requires j < |columns| && columns[j].name == name
    ensures k <= j && FirstNamed(columns, name, k)
    decreases j
  {
    if exists m :: 0 <= m < j && columns[m].name == name {
      var m :| 0 <= m < j && columns[m].name == name;
      k := FirstIndex(columns, name, m);
    } else {
      k := j;
    }
  }

  /** The messages `verify_table`'s loop collects: every non-empty column verdict,
      in the order of the expected columns. */
  function ErrorsFor(columns: seq<Column>, expected: seq<Column>): (r: seq<string>)
    ensures |r| <= |expected|
    decreases |expected|
  {
    if expected == [] then []
    else
      var last := expected[|expected| - 1];
      var m := ColumnVerdict(columns, last.name, last.columnType);
      ErrorsFor(columns, expected[..|expected| - 1]) + (if m != "" then [m] else [])
  }

  /** The messages for two runs of expected columns are those of the first followed
      by those of the second. */
  lemma {:induction false} ErrorsForConcat(columns: seq<Column>, a: seq<Column>, b: seq<Column>)
    ensures ErrorsFor(columns, a + b) == ErrorsFor(columns, a) + ErrorsFor(columns, b)
    decreases |b|
  {
    if b == [] {
      assert a + b == a;
    } else {
      var b' := b[..|b| - 1];
      assert (a + b)[..|a + b| - 1] == a + b';
      assert (a + b)[|a + b| - 1] == b[|b| - 1];
      ErrorsForConcat(columns, a, b');
    }
  }

  /** The collected list is empty exactly when every expected column verifies. */
  lemma {:induction false} ErrorsForEmpty(columns: seq<Column>, expected: seq<Column>)
    ensures ErrorsFor(columns, expected) == []
        <==> forall i :: 0 <= i < |expected| ==> ColumnVerdict(columns, expected[i].name, expected[i].columnType) == ""
    decreases |expected|
  {
    if expected != [] {
      var init := expected[..|expected| - 1];
      ErrorsForEmpty(columns, init);
      assert forall i :: 0 <= i < |init| ==> init[i] == expected[i];
    }
  }

  /** Every collected message is the non-empty verdict of one of the expected columns. */
  lemma {:induction false} ErrorsForMessages(columns: seq<Column>, expected: seq<Column>)
    ensures forall m :: m in ErrorsFor(columns, expected) ==>
      m != "" && exists i :: 0 <= i < |expected| && m == ColumnVerdict(columns, expected[i].name, expected[i].columnType)
    decreases |expected|
  {
    if expected != [] {
      var init := expected[..|expected| - 1];
      ErrorsForMessages(columns, init);
      assert forall i :: 0 <= i < |init| ==> init[i] == expected[i];
    }
  }

  /** What `verify_table` returns: a message string for an unknown table, the list
      of column messages, or `False` when there are none. */
  datatype TableCheck = TableNotFound(message: string) | Errors(messages: seq<string>) | NoErrors

  function TableNotFoundMessage(tableName: string): string {
    "Table '" + tableName + "' not found."
  }

  /** `verify_table`, with the data tables of the app passed in as `registry`. */
  function TableVerdict(registry: map<string, seq<Column>>, tableName: string, expected: seq<Column>): TableCheck {
    if tableName !in registry then TableNotFound(TableNotFoundMessage(tableName))
    else
      var errors := ErrorsFor(registry[tableName], expected);
      if errors != [] then Errors(errors) else NoErrors
  }

  /** `verify_table`: one `_verify_column` per expected column, appending the
      non-empty messages. */
  method VerifyTable(registry: map<string, seq<Column>>, tableName: string, expected: seq<Column>)
    returns (r: TableCheck)
    ensures r == TableVerdict(registry, tableName, expected)
  {
    if tableName !in registry {
      return TableNotFound(TableNotFoundMessage(tableName));
    }
    var tableColumns := registry[tableName];
    var errors: seq<string> := [];
    for i := 0 to |expected|
      invariant errors == ErrorsFor(tableColumns, expected[..i])
    {
      var column := expected[i];
      var result := VerifyColumn(tableColumns, column.name, column.columnType);
      assert expected[..i + 1][..i] == expected[..i];
      if result != "" {
        errors := errors + [result];
      }
    }
    assert expected[..|expected|] == expected;
    if errors != [] {
      return Errors(errors);
    }
    return NoErrors;
  }

  /** The three answers of `verify_table`: an unknown table gives its message, a known
      table gives `False` exactly when every expected column verifies, and otherwise
      the non-empty list of messages, at most one per expected column. */
  lemma TableVerdictCases(registry: map<string, seq<Column>>, tableName: string, expected: seq<Column>)
    ensures TableVerdict(registry, tableName, expected).TableNotFound? <==> tableName !in registry
    ensures TableVerdict(registry, tableName, expected) == NoErrors
        <==> tableName in registry
             && forall i :: 0 <= i < |expected| ==>
                  ColumnVerdict(registry[tableName], expected[i].name, expected[i].columnType) == ""
    ensures TableVerdict(registry, tableName, expected).Errors? ==>
      var ms := TableVerdict(registry, tableName, expected).messages;
      ms != [] && |ms| <= |expected| && ms == ErrorsFor(registry[tableName], expected)
  {
    if tableName in registry {
      ErrorsForEmpty(registry[tableName], expected);
    }
  }

  // ---------------------------------------------------------------------------
  // raises
  // ---------------------------------------------------------------------------

  /** The message `raises` fails with when the body raises nothing and no message
      was given: `f"{expected_error} not raised."`. */
  function DefaultNotRaised(expected: ErrorKind): string {
    ClassText(expected) + " not raised."
  }

  /** `msg or default` */
  function MessageOr(msg: Option<string>, default: string): string {
    if msg.Some? && msg.value != "" then msg.value else default
  }

  /** The `AssertionError` raised for an unexpected exception of another kind. */
  function UnexpectedError(e: Exception, expected: ErrorKind): Exception {
    AssertionError(e.kind.name + " raised, expected " + expected.name)
  }

  /** What leaves `with raises(expected, msg): body` as the code is written: `None`
      when nothing escapes. A body that completes raises the "not raised" assertion
      inside the same `try`, so that assertion goes through the handlers too. */
  function RaisesAsWritten(expected: ErrorKind, msg: Option<string>, body: Outcome): Option<Exception> {
    var e := if body.Returned? then AssertionError(MessageOr(msg, DefaultNotRaised(expected))) else body.error;
    if IsInstance(e, expected) then None
    else if IsAssertion(e) then (if e.text != DefaultNotRaised(expected) then Some(e) else None)
    else if IsException(e) then Some(UnexpectedError(e, expected))
    else Some(e)
  }

  /** When the body raises: an instance of the expected class is absorbed; another
      assertion is re-raised unchanged unless its text is the default "not raised"
      text; any other `Exception` becomes "{Kind} raised, expected {Name}"; and what
      is not an `Exception` passes through. */
  lemma RaisesAsWrittenRaised(expected: ErrorKind, msg: Option<string>, e: Exception)
    ensures var r := RaisesAsWritten(expected, msg, Raised(e));
      (IsInstance(e, expected) ==> r == None)
      && (!IsInstance(e, expected) && IsAssertion(e) ==>
            r == if e.text != DefaultNotRaised(expected) then Some(e) else None)
      && (!IsInstance(e, expected) && !IsAssertion(e) && IsException(e) ==> r == Some(UnexpectedError(e, expected)))
      && (!IsInstance(e, expected) && !IsException(e) ==> r == Some(e))
  {
    if IsAssertion(e) {
      AssertionIsException(e);
    }
  }

  /** A completing body with a custom message fails with that message, unless the
      expected class is a base of `AssertionError` or the message is the default text. */
  lemma RaisesAsWrittenCustomMessage(expected: ErrorKind, m: string)
    requires m != "" && m != DefaultNotRaised(expected)
    requires !IsSubclass(AssertionErrorKind, expected)
    ensures RaisesAsWritten(expected, Some(m), Returned) == Some(AssertionError(m))
  {
    assert IsSubclass(AssertionErrorKind, AssertionErrorKind);
    assert AssertionError(m).text == m;
  }

  /** As written, a completing body without a message never fails: the "not raised"
      assertion carries exactly the text the `AssertionError` handler swallows. */
  lemma RaisesAsWrittenSwallowsOwnAssertion(expected: ErrorKind, msg: Option<string>)
    requires msg == None || msg == Some("")
    ensures RaisesAsWritten(expected, msg, Returned) == None
  {
    var e := AssertionError(DefaultNotRaised(expected));
    assert IsSubclass(AssertionErrorKind, AssertionErrorKind);
    assert e.text == DefaultNotRaised(expected);
  }

  /** The message `raises` is evidently meant to fail with when nothing was raised,
      "{Name} not raised." */
  function NotRaised(expected: ErrorKind): string {
    expected.name + " not raised."
  }

  /** `raises` as intended: a completing body always fails, with `msg` or the default
      message; a raised exception is classified as in the code, except that every
      assertion that is not of the expected class is re-raised. */
  function Raises(expected: ErrorKind, msg: Option<string>, body: Outcome): Option<Exception> {
    match body
    case Returned => Some(AssertionError(MessageOr(msg, NotRaised(expected))))
    case Raised(e) =>
      if IsInstance(e, expected) then None
      else if IsAssertion(e) then Some(e)
      else if IsException(e) then Some(UnexpectedError(e, expected))
      else Some(e)
  }

  /** Nothing escapes `raises` exactly when the body raised an instance of the
      expected class; whatever escapes is an assertion, or the body's own exception
      passed through unchanged. */
  lemma RaisesSpec(expected: ErrorKind, msg: Option<string>, body: Outcome)
    ensures Raises(expected, msg, body) == None <==> body.Raised? && IsInstance(body.error, expected)
    ensures Raises(expected, msg, body).Some? ==>
      IsAssertion(Raises(expected, msg, body).value)
      || (body.Raised? && Raises(expected, msg, body).value == body.error)
  {
    assert IsSubclass(AssertionErrorKind, AssertionErrorKind);
  }

  /** The two agree whenever the body raises something other than an assertion. */
  lemma RaisesAgree(expected: ErrorKind, msg: Option<string>, e: Exception)
    requires IsInstance(e, expected) || !IsAssertion(e)
    ensures RaisesAsWritten(expected, msg, Raised(e)) == Raises(expected, msg, Raised(e))
  {
  }

  /** `with raises(LookupError): pass` lets nothing escape as written, while the
      intended version fails with "LookupError not raised.". */
  lemma RaisesLookupErrorExample()
    ensures RaisesAsWritten(LookupErrorKind, None, Returned) == None
    ensures Raises(LookupErrorKind, None, Returned) == Some(AssertionError(NotRaised(LookupErrorKind)))
  {
    RaisesAsWrittenSwallowsOwnAssertion(LookupErrorKind, None);
  }

  // ---------------------------------------------------------------------------
  // Random values from the clock
  // ---------------------------------------------------------------------------

  /** `time.time_ns() + int(str(time.time_ns())[::-1])`, with the two readings of the
      clock passed in. */
  function Seed(t1: nat, t2: nat): nat {
    var rev := Reverse(Decimal(t2));
    assert forall i :: 0 <= i < |rev| ==> IsDecimalDigit(rev[i]);
    t1 + ParseDecimal(rev)
  }

  /** `gen_int(n_digits)`: the seed modulo `10**n_digits - 1`; with no digits the
      modulus is zero and Python raises `ZeroDivisionError`. */
  function GenInt(t1: nat, t2: nat, nDigits: nat): Result<nat, Exception> {
    var m := Pow(10, nDigits) - 1;
    if m == 0 then Err(Raise(ZeroDivisionErrorKind, [Str("integer division or modulo by zero")]))
    else Ok(Seed(t1, t2) % m)
  }

  lemma {:induction false} PowTenAtLeast(n: nat)
    requires n >= 1
    ensures Pow(10, n) >= 10
  {
    if n > 1 {
      PowTenAtLeast(n - 1);
    }
  }

  /** `gen_int(n)` fails only for `n == 0`; otherwise it lies in `[0, 10**n - 1)` and
      so has at most `n` digits. */
  lemma GenIntBound(t1: nat, t2: nat, nDigits: nat)
    ensures GenInt(t1, t2, nDigits).Ok? <==> nDigits >= 1
    ensures GenInt(t1, t2, nDigits).Err? ==> GenInt(t1, t2, nDigits).error.kind == ZeroDivisionErrorKind
    ensures GenInt(t1, t2, nDigits).Ok? ==>
      GenInt(t1, t2, nDigits).value < Pow(10, nDigits) - 1
      && |Decimal(GenInt(t1, t2, nDigits).value)| <= nDigits
  {
    if nDigits >= 1 {
      PowTenAtLeast(nDigits);
      DigitsBound(GenInt(t1, t2, nDigits).value, 10, nDigits);
    }
  }

  /** The hexadecimal digits of `gen_int()` (ten decimal digits). */
  function HexDigitsOfGenInt(t1: nat, t2: nat): string {
    match GenInt(t1, t2, 10)
    case Ok(x) => Digits(x, 16)
    case Err(_) => ""
  }

  /** `gen_str(n)`: `hex(gen_int())[2:n + 2]`. */
  function GenStr(t1: nat, t2: nat, nCharacters: int): string {
    match GenInt(t1, t2, 10)
    case Ok(x) => Slice(Hex(x), 2, nCharacters + 2)
    case Err(_) => ""
  }

  /** `gen_str(n)` for `n >= 0` is the first `n` hexadecimal digits of `gen_int()`, or
      all of them when there are fewer; a value below `10**10 - 1` has at most nine. */
  lemma GenStrSpec(t1: nat, t2: nat, nCharacters: int)
    requires nCharacters >= 0
    ensures var d := HexDigitsOfGenInt(t1, t2);
      |d| <= 9
      && GenStr(t1, t2, nCharacters) == d[..if nCharacters <= |d| then nCharacters else |d|]
  {
    GenIntBound(t1, t2, 10);
    var x := GenInt(t1, t2, 10).value;
    HexDigitsBound(x);
    SliceAfterPrefix("0x", Digits(x, 16), nCharacters);
  }

  /** Slicing past a prefix: `(p + d)[len(p):len(p) + n] == d[:n]`. */
  lemma SliceAfterPrefix(p: string, d: string, n: int)
    requires n >= 0
    ensures Slice(p + d, |p|, n + |p|) == d[..if n <= |d| then n else |d|]
  {
    var b := if n <= |d| then n else |d|;
    assert (p + d)[|p|..b + |p|] == d[..b];
  }

  /** A value below `10**10 - 1` has at most nine hexadecimal digits. */
  lemma HexDigitsBound(x: nat)
    requires x < Pow(10, 10) - 1
    ensures |Digits(x, 16)| <= 9
  {
    PowValues();
    DigitsBound(x, 16, 9);
  }

  lemma PowValues()
    ensures Pow(10, 10) < Pow(16, 9)
  {
    assert Pow(10, 10) == 10000000000;
    assert Pow(16, 9) == 68719476736;
  }

  /** Hence `len(gen_str(n)) <= n`. */
  lemma GenStrLength(t1: nat, t2: nat, nCharacters: int)
    requires nCharacters >= 0
    ensures |GenStr(t1, t2, nCharacters)| <= nCharacters
    ensures |GenStr(t1, t2, nCharacters)| <= 9
  {
    GenStrSpec(t1, t2, nCharacters);
  }

  // ---------------------------------------------------------------------------
  // The quiet flag of the test page
  // ---------------------------------------------------------------------------

  /** The `quiet` query parameter of the test page: absent or empty means not quiet;
      otherwise quiet when its lower-case form is "1" or "true". */
  function QuietParam(query: map<string, string>): bool {
    if "quiet" !in query || query["quiet"] == "" then false
    else Lower(query["quiet"]) in {"1", "true"}
  }

  lemma {:induction false} LowerIdempotent(s: string)
    ensures Lower(Lower(s)) == Lower(s)
  {
    var l := Lower(s);
    assert forall i :: 0 <= i < |s| ==> LowerChar(l[i]) == l[i];
  }

  /** Quiet exactly when the parameter is present and reads "1" or "true" in any
      mix of cases; so the parameter's case never matters. */
  lemma QuietParamSpec(query: map<string, string>)
    ensures QuietParam(query) <==> "quiet" in query && Lower(query["quiet"]) in {"1", "true"}
    ensures "quiet" in query ==>
      QuietParam(query) == QuietParam(query["quiet" := Lower(query["quiet"])])
  {
    if "quiet" in query {
      var v := query["quiet"];
      LowerIdempotent(v);
      assert |Lower(v)| == |v|;
      if v != "" {
        assert Lower(v) != "";
      }
    }
  }
}
