/** Test discovery (`_find_tests` in server_code/auto.py): a walk over the attributes
    of a test package that collects test functions and test methods. */
module Discovery {
  import opened Options
  import opened Text
  import opened PyErrors

  /** Prefix of test functions and test methods. */
  const FnPrefix := "test_"
  /** Prefix of test classes. */
  const ClsPrefix := "Test"

  /** A Python function: its `__module__`, its `__qualname__`, and what calling it does. */
  datatype Func = Func(moduleName: string, qualname: string, outcome: Outcome)

  /** The objects discovery tells apart. `attrs` are what `dir()` lists, in the order it
      lists them (sorted by name), with the object `getattr` gives for each name. */
  datatype Obj =
    | Module(name: string, attrs: seq<Attr>)   // name is the dotted `__name__`
    | Class(name: string, attrs: seq<Attr>)
    | Function(fn: Func)
    | Value                                    // anything else
  datatype Attr = Attr(name: string, obj: Obj)

  predicate IsNamespace(o: Obj) {
    o.Module? || o.Class?
  }

  /** A discovered test: a plain function, or a function bound to a new instance of
      the named class. */
  datatype Unit = Free(fn: Func) | Bound(cls: string, fn: Func)

  /** What the `i`-th attribute of `parent` contributes, by the four branches of the loop. */
  function Visit(parent: Obj, i: nat): seq<Unit>
    requires IsNamespace(parent) && i < |parent.attrs|
    decreases parent, 0, i
  {
    var a := parent.attrs[i];
    if StartsWith(a.name, "_") then []
    else match a.obj
      case Module(n, _) => if StartsWith(n, parent.name) then Discover(a.obj) else []
      case Class(_, _) => if StartsWith(a.name, ClsPrefix) then Discover(a.obj) else []
      case Function(f) =>
        if !StartsWith(a.name, FnPrefix) then []
        else if parent.Class? then [Bound(parent.name, f)]
        else [Free(f)]
      case Value => []
  }

  /** The tests found in the first `i` attributes of `parent`. */
  function DiscoverUpTo(parent: Obj, i: nat): seq<Unit>
    requires IsNamespace(parent) && i <= |parent.attrs|
    decreases parent, 0, i
  {
    if i == 0 then [] else DiscoverUpTo(parent, i - 1) + Visit(parent, i - 1)
  }

  /** `_find_tests(parent)`, with the instances left out. */
  function Discover(parent: Obj): seq<Unit>
    decreases parent, 1
  {
    if IsNamespace(parent) then DiscoverUpTo(parent, |parent.attrs|) else []
  }

  /** A public attribute named like a test that holds a function. */
  predicate IsTestFunction(a: Attr) {
    !StartsWith(a.name, "_") && StartsWith(a.name, FnPrefix) && a.obj.Function?
  }

  /** The unit a test function found directly in `parent` becomes. */
  function UnitIn(parent: Obj, f: Func): Unit {
    if parent.Class? then Bound(parent.name, f) else Free(f)
  }

  /** No attribute of `parent` is a module or a class. */
  predicate Flat(parent: Obj)
    requires IsNamespace(parent)
  {
    forall i :: 0 <= i < |parent.attrs| ==> !IsNamespace(parent.attrs[i].obj)
  }

  /** The test functions among `attrs`, front to back, as units of `parent`. */
  function FlatTests(parent: Obj, attrs: seq<Attr>): seq<Unit>
    decreases |attrs|
  {
    if attrs == [] then []
    else (if IsTestFunction(attrs[0]) then [UnitIn(parent, attrs[0].obj.fn)] else []) + FlatTests(parent, attrs[1..])
  }

  lemma {:induction false} FlatTestsConcat(parent: Obj, a: seq<Attr>, b: seq<Attr>)
    ensures FlatTests(parent, a + b) == FlatTests(parent, a) + FlatTests(parent, b)
    decreases |a|
  {
    if a != [] {
      assert (a + b)[0] == a[0] && (a + b)[1..] == a[1..] + b;
      FlatTestsConcat(parent, a[1..], b);
    } else {
      assert a + b == b;
    }
  }

  /** A unit is among the test functions of `attrs` exactly when some attribute is a
      test function that gives it. */
  lemma {:induction false} FlatTestsMembers(parent: Obj, attrs: seq<Attr>)
    ensures forall u :: u in FlatTests(parent, attrs) <==>
              exists j :: 0 <= j < |attrs| && IsTestFunction(attrs[j]) && u == UnitIn(parent, attrs[j].obj.fn)
    decreases |attrs|
  {
    if attrs != [] {
      var tail := attrs[1..];
      FlatTestsMembers(parent, tail);
      assert forall j :: 1 <= j < |attrs| ==> attrs[j] == tail[j - 1];
      forall u ensures u in FlatTests(parent, attrs) ==>
                 exists j :: 0 <= j < |attrs| && IsTestFunction(attrs[j]) && u == UnitIn(parent, attrs[j].obj.fn) {
        if u in FlatTests(parent, attrs) && !(IsTestFunction(attrs[0]) && u == UnitIn(parent, attrs[0].obj.fn)) {
          assert u in FlatTests(parent, tail);
          var k :| 0 <= k < |tail| && IsTestFunction(tail[k]) && u == UnitIn(parent, tail[k].obj.fn);
          assert attrs[k + 1] == tail[k];
        }
      }
    }
  }

  /** In a namespace without sub-namespaces, the loop over the first `i` attributes
      finds their test functions, in order. */
  lemma {:induction false} DiscoverUpToFlat(parent: Obj, i: nat)
    requires IsNamespace(parent) && Flat(parent) && i <= |parent.attrs|
    ensures DiscoverUpTo(parent, i) == FlatTests(parent, parent.attrs[..i])
    decreases i
  {
    if i > 0 {
      DiscoverUpToFlat(parent, i - 1);
      var x := parent.attrs[i - 1];
      assert !IsNamespace(x.obj);
      assert parent.attrs[..i] == parent.attrs[..i - 1] + [x];
      FlatTestsConcat(parent, parent.attrs[..i - 1], [x]);
      assert FlatTests(parent, [x]) == (if IsTestFunction(x) then [UnitIn(parent, x.obj.fn)] else []) + FlatTests(parent, []);
    }
  }

  /** `_find_tests` on a namespace without sub-namespaces finds exactly its public test
      functions, in the order of its attributes, as methods of it when it is a class. */
  lemma DiscoverFlat(parent: Obj)
    requires IsNamespace(parent) && Flat(parent)
    ensures Discover(parent) == FlatTests(parent, parent.attrs)
  {
    DiscoverUpToFlat(parent, |parent.attrs|);
    assert parent.attrs[..|parent.attrs|] == parent.attrs;
  }

  // ---------------------------------------------------------------- nested namespaces

  /** The namespace `parent` with its attributes replaced by `attrs`. */
  function WithAttrs(parent: Obj, attrs: seq<Attr>): (r: Obj)
    requires IsNamespace(parent)
    ensures IsNamespace(r) && r.name == parent.name && r.Class? == parent.Class? && r.attrs == attrs
  {
    if parent.Module? then Module(parent.name, attrs) else Class(parent.name, attrs)
  }

  /** What an attribute contributes depends only on it and on the kind and name of the
      namespace holding it. */
  lemma VisitSame(p: Obj, q: Obj, i: nat, j: nat)
    requires IsNamespace(p) && IsNamespace(q) && p.name == q.name && p.Class? == q.Class?
    requires i < |p.attrs| && j < |q.attrs| && p.attrs[i] == q.attrs[j]
    ensures Visit(p, i) == Visit(q, j)
  {
  }

  lemma {:induction false} DiscoverUpToPrefix(p: Obj, q: Obj, i: nat)
    requires IsNamespace(p) && IsNamespace(q) && p.name == q.name && p.Class? == q.Class?
    requires i <= |p.attrs| && i <= |q.attrs| && p.attrs[..i] == q.attrs[..i]
    ensures DiscoverUpTo(p, i) == DiscoverUpTo(q, i)
    decreases i
  {
    if i > 0 {
      assert p.attrs[..i - 1] == p.attrs[..i][..i - 1];
      assert q.attrs[..i - 1] == q.attrs[..i][..i - 1];
      DiscoverUpToPrefix(p, q, i - 1);
      assert p.attrs[i - 1] == p.attrs[..i][i - 1];
      VisitSame(p, q, i - 1, i - 1);
    }
  }

  lemma {:induction false} DiscoverUpToSplit(parent: Obj, a: seq<Attr>, b: seq<Attr>, k: nat)
    requires IsNamespace(parent) && parent.attrs == a + b && k <= |b|
    ensures DiscoverUpTo(parent, |a| + k) == Discover(WithAttrs(parent, a)) + DiscoverUpTo(WithAttrs(parent, b), k)
    decreases k
  {
    var pa, pb := WithAttrs(parent, a), WithAttrs(parent, b);
    if k == 0 {
      assert parent.attrs[..|a|] == a == pa.attrs[..|a|];
      DiscoverUpToPrefix(parent, pa, |a|);
    } else {
      DiscoverUpToSplit(parent, a, b, k - 1);
      assert parent.attrs[|a| + k - 1] == b[k - 1];
      VisitSame(parent, pb, |a| + k - 1, k - 1);
      var x, y, z := Discover(pa), DiscoverUpTo(pb, k - 1), Visit(pb, k - 1);
      assert x + y + z == x + (y + z);
    }
  }

  /** Discovery splits over the attributes: the tests of a namespace are those of its
      first attributes followed by those of the rest. */
  lemma DiscoverSplit(parent: Obj, a: seq<Attr>, b: seq<Attr>)
    requires IsNamespace(parent) && parent.attrs == a + b
    ensures Discover(parent) == Discover(WithAttrs(parent, a)) + Discover(WithAttrs(parent, b))
  {
    DiscoverUpToSplit(parent, a, b, |b|);
  }

  /** What one attribute contributes: nothing when its name starts with "_"; a
      module's tests when its name extends the parent's; a "Test" class's methods; a
      test function; nothing for anything else. */
  lemma DiscoverOne(parent: Obj, x: Attr)
    requires IsNamespace(parent)
    ensures var d := Discover(WithAttrs(parent, [x]));
            && (StartsWith(x.name, "_") ==> d == [])
            && (!StartsWith(x.name, "_") && x.obj.Module? ==>
                  d == if StartsWith(x.obj.name, parent.name) then Discover(x.obj) else [])
            && (!StartsWith(x.name, "_") && x.obj.Class? ==>
                  d == if StartsWith(x.name, ClsPrefix) then Discover(x.obj) else [])
            && (x.obj.Function? ==> d == if IsTestFunction(x) then [UnitIn(parent, x.obj.fn)] else [])
            && (x.obj.Value? ==> d == [])
  {
    var p := WithAttrs(parent, [x]);
    assert Discover(p) == DiscoverUpTo(p, 0) + Visit(p, 0);
  }

  /** A test package: its own test module, holding a test class with a private helper
      and a test method, an imported module whose name lies outside the package, and
      a module-level value; plus a test function at package level and a class whose
      name does not start with "Test". */
  lemma NestedPackageExample(f1: Func, f2: Func, f3: Func, f4: Func, f5: Func)
    ensures var raises := Class("TestRaises", [Attr("_setup", Function(f1)), Attr("test_expected", Function(f2))]);
            var helpers := Module("tests.helpers",
              [Attr("TestRaises", raises), Attr("anvil", Module("anvil", [Attr("test_import", Function(f3))])),
               Attr("limit", Value)]);
            var pkg := Module("tests",
              [Attr("Helper", Class("Helper", [Attr("test_hidden", Function(f4))])),
               Attr("helpers", helpers), Attr("test_top", Function(f5))]);
            Discover(pkg) == [Bound("TestRaises", f2), Free(f5)]
  {
    var raises := Class("TestRaises", [Attr("_setup", Function(f1)), Attr("test_expected", Function(f2))]);
    var anvil := Module("anvil", [Attr("test_import", Function(f3))]);
    var helpers := Module("tests.helpers", [Attr("TestRaises", raises), Attr("anvil", anvil), Attr("limit", Value)]);
    var pkg := Module("tests",
      [Attr("Helper", Class("Helper", [Attr("test_hidden", Function(f4))])),
       Attr("helpers", helpers), Attr("test_top", Function(f5))]);
    assert Discover(raises) == [Bound("TestRaises", f2)] by {
      assert "_setup"[..1] == "_";
      assert "test_expected"[..5] == FnPrefix && "test_expected"[0] != '_';
      assert Visit(raises, 0) == [];
      assert Visit(raises, 1) == [Bound("TestRaises", f2)];
      assert DiscoverUpTo(raises, 1) == DiscoverUpTo(raises, 0) + Visit(raises, 0) == [];
      assert DiscoverUpTo(raises, 2) == DiscoverUpTo(raises, 1) + Visit(raises, 1);
      assert Discover(raises) == DiscoverUpTo(raises, 2);
    }
    assert Discover(helpers) == [Bound("TestRaises", f2)] by {
      assert "TestRaises"[..4] == ClsPrefix && "TestRaises"[0] != '_';
      assert Visit(helpers, 0) == Discover(raises);
      assert !StartsWith("anvil", "tests.helpers");
      assert Visit(helpers, 1) == [] && Visit(helpers, 2) == [];
      assert DiscoverUpTo(helpers, 1) == DiscoverUpTo(helpers, 0) + Visit(helpers, 0);
      assert DiscoverUpTo(helpers, 2) == DiscoverUpTo(helpers, 1) + Visit(helpers, 1);
      assert DiscoverUpTo(helpers, 3) == DiscoverUpTo(helpers, 2) + Visit(helpers, 2);
      assert Discover(helpers) == DiscoverUpTo(helpers, 3);
    }
    assert "Helper"[0] != ClsPrefix[0] && "Helper"[0] != '_';
    assert "tests.helpers"[..5] == "tests" && "helpers"[0] != '_';
    assert "test_top"[..5] == FnPrefix && "test_top"[0] != '_';
    assert Visit(pkg, 1) == Discover(helpers);
    assert Visit(pkg, 0) == [];
    assert Visit(pkg, 2) == [Free(f5)];
    assert DiscoverUpTo(pkg, 1) == DiscoverUpTo(pkg, 0) + Visit(pkg, 0) == [];
    assert DiscoverUpTo(pkg, 2) == DiscoverUpTo(pkg, 1) + Visit(pkg, 1);
    assert DiscoverUpTo(pkg, 3) == DiscoverUpTo(pkg, 2) + Visit(pkg, 2);
    assert Discover(pkg) == DiscoverUpTo(pkg, 3);
  }

  // ---------------------------------------------------------------- the imperative search

  /** An instance of a test class, made by calling the class with no arguments. What the
      constructor does besides is not modelled. */
  class Instance {
    const cls: string
    constructor (cls: string)
      ensures this.cls == cls
    {
      this.cls := cls;
    }
  }

  /** An element of the list `_find_tests` returns: a function, or a bound method. */
  datatype Runnable = Runnable(fn: Func, instance: Option<Instance>)

  function UnitOf(r: Runnable): Unit {
    match r.instance
    case None => Free(r.fn)
    case Some(x) => Bound(x.cls, r.fn)
  }

  function UnitsOf(rs: seq<Runnable>): (us: seq<Unit>)
    ensures |us| == |rs| && forall i :: 0 <= i < |rs| ==> us[i] == UnitOf(rs[i])
  {
    seq(|rs|, i requires 0 <= i < |rs| => UnitOf(rs[i]))
  }

  /** No two bound methods share an instance. */
  ghost predicate Isolated(rs: seq<Runnable>) {
    forall j, k :: 0 <= j < k < |rs| && rs[j].instance.Some? && rs[k].instance.Some? ==>
      rs[j].instance.value != rs[k].instance.value
  }

  lemma UnitsOfConcat(a: seq<Runnable>, b: seq<Runnable>)
    ensures UnitsOf(a + b) == UnitsOf(a) + UnitsOf(b)
  {
  }

  /** `_find_tests(parent)`: every test method gets its own instance, made during the search. */
  method FindTests(parent: Obj) returns (found: seq<Runnable>)
    ensures UnitsOf(found) == Discover(parent)
    ensures Isolated(found)
    ensures forall k :: 0 <= k < |found| && found[k].instance.Some? ==> fresh(found[k].instance.value)
    decreases parent, 1
  {
    found := [];
    if !IsNamespace(parent) {
      return;
    }
    var i := 0;
    while i < |parent.attrs|
      invariant 0 <= i <= |parent.attrs|
      invariant UnitsOf(found) == DiscoverUpTo(parent, i)
      invariant Isolated(found)
      invariant forall k :: 0 <= k < |found| && found[k].instance.Some? ==> fresh(found[k].instance.value)
    {
      var more := VisitAttr(parent, i);
      UnitsOfConcat(found, more);
      found := found + more;
      i := i + 1;
    }
  }

  /** One pass of the loop in `_find_tests`: the tests the `i`-th attribute holds. */
  method VisitAttr(parent: Obj, i: nat) returns (more: seq<Runnable>)
    requires IsNamespace(parent) && i < |parent.attrs|
    ensures UnitsOf(more) == Visit(parent, i)
    ensures Isolated(more)
    ensures forall k :: 0 <= k < |more| && more[k].instance.Some? ==> fresh(more[k].instance.value)
    decreases parent, 0
  {
    var a := parent.attrs[i];
    more := [];
    if StartsWith(a.name, "_") {
      return;
    }
    match a.obj {
      case Module(n, _) =>
        if StartsWith(n, parent.name) {
          more := FindTests(a.obj);
        }
      case Class(_, _) =>
        if StartsWith(a.name, ClsPrefix) {
          more := FindTests(a.obj);
        }
      case Function(f) =>
        if StartsWith(a.name, FnPrefix) {
          if parent.Class? {
            // a new instance of the class for each test method
            var instance := new Instance(parent.name);
            more := [Runnable(f, Some(instance))];
          } else {
            more := [Runnable(f, None)];
          }
        }
      case Value =>
    }
  }
}
