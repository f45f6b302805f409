/**
 * The scenarios of `MockHelperTest`, and the two consequences of the
 * used-count check, stated on concrete classes.
 *
 * `TestClass` is a non-static inner class of `MockHelperTest`, so reflection
 * reports its two constructors with the enclosing instance as a leading
 * parameter: `TestClass(MockHelperTest)` and
 * `TestClass(MockHelperTest, DependencyClassA)`. The operation mocks that
 * enclosing instance like any other parameter. `AInterface` declares no
 * constructor.
 */
module MockHelperExamples {
  import opened MockHelper

  const DependencyClassA: TypeName := "DependencyClassA"
  const JavaString: TypeName := "java.lang.String"
  const JavaObject: TypeName := "java.lang.Object"
  const EnclosingTest: TypeName := "MockHelperTest"

  const TestClass: seq<Signature> := [[EnclosingTest], [EnclosingTest, DependencyClassA]]
  const AInterface: seq<Signature> := []

  /** Assignability among these classes: equal, or `Object` expected. */
  function JavaAssignable(formal: TypeName, actual: TypeName): bool
  {
    formal == actual || formal == JavaObject
  }

  /** With nothing supplied, the constructor taking a `DependencyClassA` is
      chosen; the enclosing instance and the dependency receive the factory's
      next two mocks. */
  lemma ShouldCreateInstanceWithBiggestConstructor(base: nat)
    ensures Plan(TestClass, [], JavaAssignable, base)
         == Chosen(1, [Mocked(EnclosingTest, base), Mocked(DependencyClassA, base + 1)])
  {
    EmptyCandidatesAllMocked(TestClass, JavaAssignable, base);
    assert BiggestConstructor(TestClass) == 1;
  }

  /** A supplied `DependencyClassA` is passed itself; only the enclosing
      instance is mocked. */
  lemma ShouldUseSuppliedInstanceForDependency(depA: Obj, base: nat)
    requires depA.runtimeType == DependencyClassA
    ensures Plan(TestClass, [depA], JavaAssignable, base)
         == Chosen(1, [Mocked(EnclosingTest, base), Supplied(depA)])
  {
    var params := [EnclosingTest, DependencyClassA];
    assert BiggestConstructor(TestClass) == 1;
    assert Lookup(EnclosingTest, [depA], JavaAssignable) == None;
    assert Lookup(DependencyClassA, [depA], JavaAssignable) == Some(depA);
    assert Used(params, 2, [depA], JavaAssignable) == [depA];
    assert Resolve(params, 1, [depA], JavaAssignable, base) == [Mocked(EnclosingTest, base)];
  }

  /** A class without constructors fails whatever the constructor would do. */
  lemma ShouldThrowIfNoConstructorAccessible(mocks: seq<Obj>, base: nat, construct: Invoke)
    ensures Run(AInterface, mocks, JavaAssignable, base, construct) == Failed(NoAccessibleConstructor)
  {
  }

  /** A supplied `String` that no parameter takes makes the call fail. */
  lemma ShouldThrowIfSuppliedArgumentNotUsed(depA: Obj, notUsed: Obj, base: nat)
    requires depA.runtimeType == DependencyClassA && notUsed.runtimeType == JavaString
    ensures Plan(TestClass, [depA, notUsed], JavaAssignable, base) == Rejected(UnusedSuppliedMock)
  {
    var params := [EnclosingTest, DependencyClassA];
    assert BiggestConstructor(TestClass) == 1;
    assert Lookup(EnclosingTest, [depA, notUsed], JavaAssignable) == None;
    assert Lookup(DependencyClassA, [depA, notUsed], JavaAssignable) == Some(depA);
    assert Used(params, 2, [depA, notUsed], JavaAssignable) == [depA];
  }

  /** One constructor taking two `DependencyClassA`: one supplied object fills
      both parameters and the call fails (two uses against one supplied). */
  lemma OneCandidateForTwoParametersIsRejected(a: Obj, base: nat)
    requires a.runtimeType == DependencyClassA
    ensures Plan([[DependencyClassA, DependencyClassA]], [a], JavaAssignable, base) == Rejected(UnusedSuppliedMock)
  {
    ReusedCandidateRejected([DependencyClassA, DependencyClassA], [a], JavaAssignable, 0, 1);
  }

  /** Two supplied `DependencyClassA` for the same constructor: the first
      fills both parameters, the second is never passed, and the call succeeds. */
  lemma SecondSameTypedCandidateIgnored(a: Obj, b: Obj, base: nat)
    requires a.runtimeType == DependencyClassA && b.runtimeType == DependencyClassA && a != b
    ensures Plan([[DependencyClassA, DependencyClassA]], [a, b], JavaAssignable, base)
         == Chosen(0, [Supplied(a), Supplied(a)])
    ensures Supplied(b) !in Plan([[DependencyClassA, DependencyClassA]], [a, b], JavaAssignable, base).args
  {
    var params := [DependencyClassA, DependencyClassA];
    assert Lookup(DependencyClassA, [a, b], JavaAssignable) == Some(a);
    assert Used(params, 2, [a, b], JavaAssignable) == [a, a];
    var args := Resolve(params, 2, [a, b], JavaAssignable, base);
    ResolveAt(params, 2, [a, b], JavaAssignable, base, 0);
    ResolveAt(params, 2, [a, b], JavaAssignable, base, 1);
    assert args == [Supplied(a), Supplied(a)];
  }

  /** A `DependencyClassA` and an unrelated `String` for a constructor taking
      two `DependencyClassA`: the first object fills both parameters, which
      makes up the count, so the `String` is silently ignored and the call
      goes ahead. */
  lemma UnrelatedCandidateIgnoredWhenAnotherIsReused(a: Obj, s: Obj, base: nat)
    requires a.runtimeType == DependencyClassA && s.runtimeType == JavaString
    ensures Plan([[DependencyClassA, DependencyClassA]], [a, s], JavaAssignable, base)
         == Chosen(0, [Supplied(a), Supplied(a)])
    ensures Supplied(s) !in Plan([[DependencyClassA, DependencyClassA]], [a, s], JavaAssignable, base).args
  {
    var params := [DependencyClassA, DependencyClassA];
    assert Lookup(DependencyClassA, [a, s], JavaAssignable) == Some(a);
    assert Used(params, 2, [a, s], JavaAssignable) == [a, a];
    var args := Resolve(params, 2, [a, s], JavaAssignable, base);
    ResolveAt(params, 2, [a, s], JavaAssignable, base, 0);
    ResolveAt(params, 2, [a, s], JavaAssignable, base, 1);
    assert args == [Supplied(a), Supplied(a)];
  }
}
