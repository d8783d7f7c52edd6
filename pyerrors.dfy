/** Python exceptions as the test runner sees them: a class with its base classes,
    the arguments it was raised with, `str` of the exception, and `str`/`repr` of the
    arguments. */
module PyErrors {
  import opened Text

  /** A Python exception class: the module that defines it, its `__name__`, and its
      direct base classes. */
  datatype ErrorKind = ErrorKind(moduleName: string, name: string, bases: seq<ErrorKind>)

  const BaseExceptionKind: ErrorKind := ErrorKind("builtins", "BaseException", [])
  const ExceptionKind: ErrorKind := ErrorKind("builtins", "Exception", [BaseExceptionKind])
  const AssertionErrorKind: ErrorKind := ErrorKind("builtins", "AssertionError", [ExceptionKind])
  const ValueErrorKind: ErrorKind := ErrorKind("builtins", "ValueError", [ExceptionKind])
  const ArithmeticErrorKind: ErrorKind := ErrorKind("builtins", "ArithmeticError", [ExceptionKind])
  const ZeroDivisionErrorKind: ErrorKind := ErrorKind("builtins", "ZeroDivisionError", [ArithmeticErrorKind])
  const LookupErrorKind: ErrorKind := ErrorKind("builtins", "LookupError", [ExceptionKind])
  const KeyErrorKind: ErrorKind := ErrorKind("builtins", "KeyError", [LookupErrorKind])

  /** `issubclass(c, d)` */
  predicate IsSubclass(c: ErrorKind, d: ErrorKind)
    decreases c
  {
    c == d || exists i :: 0 <= i < |c.bases| && IsSubclass(c.bases[i], d)
  }

  /** `str(cls)`, e.g. "<class 'LookupError'>"; built-in classes are shown without
      their module. */
  function ClassText(k: ErrorKind): string {
    "<class '" + (if k.moduleName == "builtins" then k.name else k.moduleName + "." + k.name) + "'>"
  }

  /** An argument an exception was raised with. */
  datatype Payload =
    | Str(s: string)
    | List(items: seq<string>)               // a list of strings
    | Set(items: seq<string>)                // a set of strings, in its iteration order
    | Dict(entries: seq<(string, string)>)   // a dict of strings, in insertion order
    | Other(text: string, repr: string, truthy: bool)  // anything else: its str(), repr() and truth value

  /** `bool(p)` */
  predicate Truthy(p: Payload) {
    match p
    case Str(s) => s != ""
    case List(items) => items != []
    case Set(items) => items != []
    case Dict(entries) => entries != []
    case Other(_, _, truthy) => truthy
  }

  function Quote(s: string): string {
    "'" + s + "'"
  }

  function QuoteAll(items: seq<string>): (r: seq<string>)
    ensures |r| == |items|
  {
    seq(|items|, i requires 0 <= i < |items| => Quote(items[i]))
  }

  function DictEntries(entries: seq<(string, string)>): (r: seq<string>)
    ensures |r| == |entries|
  {
    seq(|entries|, i requires 0 <= i < |entries| => Quote(entries[i].0) + ": " + Quote(entries[i].1))
  }

  /** `repr(p)` (strings are quoted with single quotes, without escaping) */
  function ReprOf(p: Payload): string {
    match p
    case Str(s) => Quote(s)
    case List(items) => "[" + Join(", ", QuoteAll(items)) + "]"
    case Set(items) => if items == [] then "set()" else "{" + Join(", ", QuoteAll(items)) + "}"
    case Dict(entries) => "{" + Join(", ", DictEntries(entries)) + "}"
    case Other(_, repr, _) => repr
  }

  /** `str(p)` */
  function StrOf(p: Payload): string {
    match p
    case Str(s) => s
    case Other(text, _, _) => text
    case _ => ReprOf(p)
  }

  /** A raised exception: its class, its `args`, and `str()` of it. A class may define
      its own `__str__`; one that keeps `BaseException.__str__` has `ArgsStr(args)`. */
  datatype Exception = Exception(kind: ErrorKind, args: seq<Payload>, text: string)

  /** `kind(*args)` for a class that keeps `BaseException.__str__`. */
  function Raise(kind: ErrorKind, args: seq<Payload>): Exception {
    Exception(kind, args, ArgsStr(args))
  }

  /** `AssertionError(msg)` */
  function AssertionError(msg: string): Exception {
    Raise(AssertionErrorKind, [Str(msg)])
  }

  /** `KeyError(key)`: `KeyError.__str__` shows the `repr` of its one argument. */
  function KeyError(key: Payload): Exception {
    Exception(KeyErrorKind, [key], ReprOf(key))
  }

  /** `isinstance(e, k)` */
  predicate IsInstance(e: Exception, k: ErrorKind) {
    IsSubclass(e.kind, k)
  }

  /** `isinstance(e, AssertionError)` */
  predicate IsAssertion(e: Exception) {
    IsInstance(e, AssertionErrorKind)
  }

  /** `isinstance(e, Exception)`: false only for the `BaseException` family that is
      not meant to be caught (`KeyboardInterrupt`, `SystemExit`, ...). */
  predicate IsException(e: Exception) {
    IsInstance(e, ExceptionKind)
  }

  function ReprAll(args: seq<Payload>): (r: seq<string>)
    ensures |r| == |args|
  {
    seq(|args|, i requires 0 <= i < |args| => ReprOf(args[i]))
  }

  /** `BaseException.__str__`: empty without arguments, `str` of the argument when
      there is one, and the tuple of the arguments otherwise. */
  function ArgsStr(args: seq<Payload>): string {
    if |args| == 0 then ""
    else if |args| == 1 then StrOf(args[0])
    else "(" + Join(", ", ReprAll(args)) + ")"
  }

  /** What running a piece of code does: it returns, or it raises. */
  datatype Outcome = Returned | Raised(error: Exception)

  /** An `AssertionError` is an `Exception`. */
  lemma AssertionIsException(e: Exception)
    requires IsAssertion(e)
    ensures IsException(e)
  {
    assert AssertionErrorKind.bases[0] == ExceptionKind;
    assert IsSubclass(ExceptionKind, ExceptionKind);
    assert IsSubclass(AssertionErrorKind, ExceptionKind);
    SubclassTransitive(e.kind, AssertionErrorKind, ExceptionKind);
  }

  /** A `KeyError` is an `Exception` and not an `AssertionError`. */
  lemma KeyErrorIsException(key: Payload)
    ensures IsException(KeyError(key)) && !IsAssertion(KeyError(key))
  {
    assert !IsSubclass(BaseExceptionKind, AssertionErrorKind);
    assert !IsSubclass(ExceptionKind, AssertionErrorKind);
    assert !IsSubclass(LookupErrorKind, AssertionErrorKind);
    assert IsSubclass(ExceptionKind, ExceptionKind);
    assert LookupErrorKind.bases[0] == ExceptionKind;
    assert IsSubclass(LookupErrorKind, ExceptionKind);
    assert KeyErrorKind.bases[0] == LookupErrorKind;
  }

  lemma {:induction false} SubclassTransitive(a: ErrorKind, b: ErrorKind, c: ErrorKind)
    requires IsSubclass(a, b) && IsSubclass(b, c)
    ensures IsSubclass(a, c)
    decreases a
  {
    if a != b {
      var i :| 0 <= i < |a.bases| && IsSubclass(a.bases[i], b);
      SubclassTransitive(a.bases[i], b, c);
    }
  }
}
