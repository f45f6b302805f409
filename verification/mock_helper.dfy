/**
 * A model of `MockHelper.newInstanceMockDependencies`: build an instance of a
 * class through its constructor with the most parameters, passing for each
 * formal parameter the first supplied object assignable to it, or a fresh mock
 * when none is, and refusing the call when the number of parameters filled
 * from supplied objects differs from the number of supplied objects.
 *
 * Reflection and the mocking library are abstracted: a class is the sequence
 * of its declared constructors' parameter types, assignability is a relation
 * given by the caller, the mock factory is an object that logs what it was
 * asked for, and invoking a constructor is a function given by the caller.
 */
module MockHelper {

  datatype Option<+T> = None | Some(value: T)

  /** A Java class, identified by its name. */
  type TypeName = string

  /** The formal parameter types of one declared constructor, in declared order. */
  type Signature = seq<TypeName>

  /** `assignable(formal, actual)`: an object whose runtime class is `actual`
      may be passed where `formal` is expected (`Class.isAssignableFrom`). */
  type Assignable = (TypeName, TypeName) -> bool

  /** A supplied (non-null) object: its identity and its runtime class. */
  datatype Obj = Obj(id: nat, runtimeType: TypeName)

  /** An actual constructor argument: a supplied object itself, or the mock
      that the factory created as its `serial`-th object. */
  datatype Arg = Supplied(obj: Obj) | Mocked(mockOf: TypeName, serial: nat)

  /** The checked exceptions a reflective constructor call may throw. */
  datatype Cause = InstantiationException | IllegalAccessException | InvocationTargetException

  /** What invoking a constructor does: yield an instance or throw. */
  datatype Construction = Constructed(instance: Obj) | Threw(cause: Cause)

  /** Invoking the constructor with the given index on the given arguments. */
  type Invoke = (nat, seq<Arg>) -> Construction

  /** The failures the model distinguishes: the operation's own two checks and
      a checked exception of the constructor call. */
  datatype Failure =
    | NoAccessibleConstructor          // the class declares no constructor
    | UnusedSuppliedMock               // filled-parameter count differs from supplied count
    | ConstructionFailed(cause: Cause) // the constructor call threw; `cause` is kept

  /** The decision taken before any constructor is invoked. */
  datatype Resolution = Rejected(failure: Failure) | Chosen(ctor: nat, args: seq<Arg>)

  /** The result of the whole operation. */
  datatype Outcome = Created(instance: Obj) | Failed(failure: Failure)

  // ---------------------------------------------------------------------------
  // findMock
  // ---------------------------------------------------------------------------

  /** Index of the first supplied object assignable to `formal`, or `|mocks|`
      when there is none. */
  function FirstAssignable(formal: TypeName, mocks: seq<Obj>, assignable: Assignable): (k: nat)
    ensures k <= |mocks|
    ensures forall j :: 0 <= j < k ==> !assignable(formal, mocks[j].runtimeType)
    ensures k < |mocks| ==> assignable(formal, mocks[k].runtimeType)
  {
    if mocks == [] then 0
    else if assignable(formal, mocks[0].runtimeType) then 0
    else 1 + FirstAssignable(formal, mocks[1..], assignable)
  }

  /** The supplied object chosen for a parameter of type `formal`. */
  function Lookup(formal: TypeName, mocks: seq<Obj>, assignable: Assignable): (r: Option<Obj>)
  {
    var k := FirstAssignable(formal, mocks, assignable);
    if k < |mocks| then Some(mocks[k]) else None
  }

  /** `findMock` answers `null` exactly when no supplied object is assignable,
      and otherwise an assignable supplied object with none before it. */
  lemma LookupMeaning(formal: TypeName, mocks: seq<Obj>, assignable: Assignable)
    ensures Lookup(formal, mocks, assignable) == None
        <==> forall j :: 0 <= j < |mocks| ==> !assignable(formal, mocks[j].runtimeType)
    ensures Lookup(formal, mocks, assignable).Some? ==>
      exists k :: 0 <= k < |mocks| && Lookup(formal, mocks, assignable).value == mocks[k]
        && assignable(formal, mocks[k].runtimeType)
        && forall j :: 0 <= j < k ==> !assignable(formal, mocks[j].runtimeType)
  {
    var k := FirstAssignable(formal, mocks, assignable);
    if k < |mocks| {
      assert Lookup(formal, mocks, assignable).value == mocks[k];
    }
  }

  /** The linear scan with early return; `None` stands for Java's `null`. */
  method FindMock(formal: TypeName, mocks: seq<Obj>, assignable: Assignable) returns (r: Option<Obj>)
    ensures r == Lookup(formal, mocks, assignable)
  {
    for i := 0 to |mocks|
      invariant forall j :: 0 <= j < i ==> !assignable(formal, mocks[j].runtimeType)
    {
      if assignable(formal, mocks[i].runtimeType) {
        return Some(mocks[i]);
      }
    }
    return None;
  }

  // ---------------------------------------------------------------------------
  // findBiggestConstructor
  // ---------------------------------------------------------------------------

  /** Among the first `n` constructors, the earliest one with the most parameters. */
  function BiggestAmong(constructors: seq<Signature>, n: nat): (k: nat)
    requires 0 < n <= |constructors|
    ensures k < n
    ensures forall j :: 0 <= j < n ==> |constructors[j]| <= |constructors[k]|
    ensures forall j :: 0 <= j < k ==> |constructors[j]| < |constructors[k]|
  {
    if n == 1 then 0
    else
      var b := BiggestAmong(constructors, n - 1);
      if |constructors[n - 1]| > |constructors[b]| then n - 1 else b
  }

  function BiggestConstructor(constructors: seq<Signature>): (k: nat)
    requires |constructors| > 0
  {
    BiggestAmong(constructors, |constructors|)
  }

  /** The constructor the operation picks is determined by the order of the
      constructor array: no other index is both maximal and earlier than
      every other maximal one. */
  lemma BiggestIsUnique(constructors: seq<Signature>, k: nat)
    requires k < |constructors|
    requires forall j :: 0 <= j < |constructors| ==> |constructors[j]| <= |constructors[k]|
    requires forall j :: 0 <= j < k ==> |constructors[j]| < |constructors[k]|
    ensures k == BiggestConstructor(constructors)
  {
  }

  /** The scan keeping the first constructor of largest arity (strict `>`). */
  method FindBiggestConstructor(constructors: seq<Signature>) returns (biggest: nat)
    requires |constructors| > 0
    ensures biggest == BiggestConstructor(constructors)
  {
    biggest := 0;
    for i := 1 to |constructors|
      invariant biggest == BiggestAmong(constructors, i)
    {
      if |constructors[i]| > |constructors[biggest]| {
        biggest := i;
      }
    }
  }

  // ---------------------------------------------------------------------------
  // Parameter resolution. Each list is defined for the first `n` parameters,
  // so that each definition follows one more turn of the resolving loop.
  // ---------------------------------------------------------------------------

  /** The supplied objects used for the first `n` parameters, one entry per
      parameter filled from them (repeats included): `usedSuppliedMocks`. */
  function Used(params: Signature, n: nat, mocks: seq<Obj>, assignable: Assignable): (used: seq<Obj>)
    requires n <= |params|
    ensures |used| <= n
  {
    if n == 0 then []
    else
      var init := Used(params, n - 1, mocks, assignable);
      match Lookup(params[n - 1], mocks, assignable)
      case Some(o) => init + [o]
      case None => init
  }

  /** Only supplied objects are ever used. */
  lemma {:induction false} UsedAreSupplied(params: Signature, n: nat, mocks: seq<Obj>, assignable: Assignable)
    requires n <= |params|
    ensures forall o :: o in Used(params, n, mocks, assignable) ==> o in mocks
  {
    if n > 0 {
      UsedAreSupplied(params, n - 1, mocks, assignable);
    }
  }

  /** The types the mock factory is asked for by the first `n` parameters, in
      order: one per parameter that no supplied object fills. */
  function MockRequests(params: Signature, n: nat, mocks: seq<Obj>, assignable: Assignable): (requested: seq<TypeName>)
    requires n <= |params|
    ensures |requested| <= n
  {
    if n == 0 then []
    else
      var init := MockRequests(params, n - 1, mocks, assignable);
      if Lookup(params[n - 1], mocks, assignable).Some? then init else init + [params[n - 1]]
  }

  /** The argument for one parameter, given the serial the next mock gets. */
  function ArgFor(formal: TypeName, mocks: seq<Obj>, assignable: Assignable, serial: nat): (a: Arg)
  {
    match Lookup(formal, mocks, assignable)
    case Some(o) => Supplied(o)
    case None => Mocked(formal, serial)
  }

  /** The arguments for the first `n` parameters (`actualParams`), for a
      factory that has already created `base` mocks. */
  function Resolve(params: Signature, n: nat, mocks: seq<Obj>, assignable: Assignable, base: nat): (args: seq<Arg>)
    requires n <= |params|
    ensures |args| == n
  {
    if n == 0 then []
    else
      Resolve(params, n - 1, mocks, assignable, base)
        + [ArgFor(params[n - 1], mocks, assignable, base + |MockRequests(params, n - 1, mocks, assignable)|)]
  }

  /** Positions among the first `n` parameters that some supplied object fills. */
  function MatchedPositions(params: Signature, n: nat, mocks: seq<Obj>, assignable: Assignable): (matched: set<nat>)
    requires n <= |params|
  {
    set i: nat | i < n && Lookup(params[i], mocks, assignable).Some?
  }

  /** Argument `i` is the first assignable supplied object for parameter `i`,
      or else a mock of parameter `i`'s type, numbered by the mocks before it. */
  lemma {:induction false} ResolveAt(params: Signature, n: nat, mocks: seq<Obj>, assignable: Assignable, base: nat, i: nat)
    requires i < n <= |params|
    ensures Resolve(params, n, mocks, assignable, base)[i] ==
      match Lookup(params[i], mocks, assignable)
      case Some(o) => Supplied(o)
      case None => Mocked(params[i], base + |MockRequests(params, i, mocks, assignable)|)
  {
    if i < n - 1 {
      ResolveAt(params, n - 1, mocks, assignable, base, i);
    }
  }

  /** The requests of fewer parameters are a prefix of the requests of more. */
  lemma {:induction false} MockRequestsPrefix(params: Signature, i: nat, n: nat, mocks: seq<Obj>, assignable: Assignable)
    requires i <= n <= |params|
    ensures MockRequests(params, i, mocks, assignable) <= MockRequests(params, n, mocks, assignable)
  {
    if i < n {
      MockRequestsPrefix(params, i, n - 1, mocks, assignable);
      var shorter := MockRequests(params, n - 1, mocks, assignable);
      assert shorter <= MockRequests(params, n, mocks, assignable);
    }
  }

  /** Every mocked argument is the object the factory created for that
      parameter's own request: its serial points at a request for the
      parameter's type. */
  lemma MockedArgIsItsRequest(params: Signature, mocks: seq<Obj>, assignable: Assignable, base: nat, i: nat)
    requires i < |params| && Lookup(params[i], mocks, assignable) == None
    ensures var a := Resolve(params, |params|, mocks, assignable, base)[i];
      var requested := MockRequests(params, |params|, mocks, assignable);
      && a.Mocked? && a.mockOf == params[i]
      && base <= a.serial < base + |requested|
      && requested[a.serial - base] == params[i]
  {
    ResolveAt(params, |params|, mocks, assignable, base, i);
    MockRequestsPrefix(params, i + 1, |params|, mocks, assignable);
  }

  /** A parameter that no supplied object fills adds one request, so the
      requests of a longer prefix outnumber those of a shorter one. */
  lemma RequestsGrowPastUnmatched(params: Signature, mocks: seq<Obj>, assignable: Assignable, i: nat, j: nat)
    requires i < j <= |params| && Lookup(params[i], mocks, assignable) == None
    ensures |MockRequests(params, i, mocks, assignable)| < |MockRequests(params, j, mocks, assignable)|
  {
  }

  /** Two mocked arguments are never the same object: the factory is asked
      once per unmatched parameter. */
  lemma MockedArgsDistinct(params: Signature, mocks: seq<Obj>, assignable: Assignable, base: nat, i: nat, j: nat)
    requires i < j < |params|
    requires Lookup(params[i], mocks, assignable) == None && Lookup(params[j], mocks, assignable) == None
    ensures var args := Resolve(params, |params|, mocks, assignable, base);
      args[i].Mocked? && args[j].Mocked? && args[i].serial < args[j].serial
  {
    ResolveAt(params, |params|, mocks, assignable, base, i);
    ResolveAt(params, |params|, mocks, assignable, base, j);
    RequestsGrowPastUnmatched(params, mocks, assignable, i, j);
  }

  /** One more parameter adds its own position to the matched positions
      exactly when a supplied object fills it. */
  lemma MatchedPositionsStep(params: Signature, n: nat, mocks: seq<Obj>, assignable: Assignable)
    requires 0 < n <= |params|
    ensures var before := MatchedPositions(params, n - 1, mocks, assignable);
      && n - 1 !in before
      && MatchedPositions(params, n, mocks, assignable) ==
           if Lookup(params[n - 1], mocks, assignable).Some? then before + {n - 1} else before
  {
  }

  /** `usedSuppliedMocks.size()` is the number of parameters filled from the
      supplied objects, and the factory is asked once for each other one. */
  lemma {:induction false} UsedCountIsMatchedPositions(params: Signature, n: nat, mocks: seq<Obj>, assignable: Assignable)
    requires n <= |params|
    ensures |Used(params, n, mocks, assignable)| == |MatchedPositions(params, n, mocks, assignable)|
    ensures |MockRequests(params, n, mocks, assignable)| == n - |MatchedPositions(params, n, mocks, assignable)|
  {
    if n == 0 {
      assert MatchedPositions(params, n, mocks, assignable) == {};
    } else {
      UsedCountIsMatchedPositions(params, n - 1, mocks, assignable);
      MatchedPositionsStep(params, n, mocks, assignable);
      var before := MatchedPositions(params, n - 1, mocks, assignable);
      var found := Lookup(params[n - 1], mocks, assignable);
      if found.Some? {
        assert Used(params, n, mocks, assignable) == Used(params, n - 1, mocks, assignable) + [found.value];
        assert MockRequests(params, n, mocks, assignable) == MockRequests(params, n - 1, mocks, assignable);
        assert |MatchedPositions(params, n, mocks, assignable)| == |before| + 1;
      } else {
        assert Used(params, n, mocks, assignable) == Used(params, n - 1, mocks, assignable);
        assert MockRequests(params, n, mocks, assignable)
            == MockRequests(params, n - 1, mocks, assignable) + [params[n - 1]];
        assert MatchedPositions(params, n, mocks, assignable) == before;
      }
    }
  }

  /** With no supplied objects nothing is used and every parameter is a request. */
  lemma {:induction false} NothingUsedFromNone(params: Signature, n: nat, assignable: Assignable)
    requires n <= |params|
    ensures Used(params, n, [], assignable) == []
    ensures MockRequests(params, n, [], assignable) == params[..n]
  {
    if n > 0 {
      NothingUsedFromNone(params, n - 1, assignable);
      assert params[..n] == params[..n - 1] + [params[n - 1]];
    }
  }

  // ---------------------------------------------------------------------------
  // Sets of sequence elements
  // ---------------------------------------------------------------------------

  predicate Distinct<T(==)>(s: seq<T>)
  {
    forall i, j :: 0 <= i < j < |s| ==> s[i] != s[j]
  }

  function Elems<T>(s: seq<T>): set<T>
  {
    set x | x in s
  }

  lemma SubsetCardinality<T>(a: set<T>, b: set<T>)
    requires a <= b
    ensures |a| <= |b|
  {
    assert b == a + (b - a);
    assert a * (b - a) == {};
  }

  lemma {:induction false} ElemsCardinality<T>(s: seq<T>)
    ensures |Elems(s)| <= |s|
    ensures Distinct(s) ==> |Elems(s)| == |s|
  {
    if s != [] {
      ElemsCardinality(s[1..]);
      assert Elems(s) == {s[0]} + Elems(s[1..]);
      if Distinct(s) {
        assert Distinct(s[1..]);
        assert s[0] !in Elems(s[1..]) by {
          forall x | x in s[1..] ensures x != s[0] {
            var j :| 0 <= j < |s[1..]| && s[1..][j] == x;
            assert s[j + 1] == x;
          }
        }
      }
    }
  }

  // ---------------------------------------------------------------------------
  // The used-count check compared with "every supplied object is used"
  // ---------------------------------------------------------------------------

  /** When no supplied object fills two parameters, a supplied object that
      fills none makes the check fail. */
  lemma UnusedCandidateRejectedWithoutReuse(params: Signature, mocks: seq<Obj>, assignable: Assignable, c: Obj)
    requires c in mocks && c !in Used(params, |params|, mocks, assignable)
    requires Distinct(Used(params, |params|, mocks, assignable))
    ensures |Used(params, |params|, mocks, assignable)| < |mocks|
  {
    var used := Used(params, |params|, mocks, assignable);
    UsedAreSupplied(params, |params|, mocks, assignable);
    ElemsCardinality(used);
    ElemsCardinality(mocks);
    assert c in Elems(mocks);
    SubsetCardinality(Elems(used), Elems(mocks) - {c});
  }

  /** When neither the supplied objects nor the filled parameters repeat an
      object, the count check holds exactly when every supplied object is used. */
  lemma CountCheckMeansAllUsed(params: Signature, mocks: seq<Obj>, assignable: Assignable)
    requires Distinct(mocks) && Distinct(Used(params, |params|, mocks, assignable))
    ensures |Used(params, |params|, mocks, assignable)| == |mocks|
        <==> forall c :: c in mocks ==> c in Used(params, |params|, mocks, assignable)
  {
    var used := Used(params, |params|, mocks, assignable);
    if forall c :: c in mocks ==> c in used {
      UsedAreSupplied(params, |params|, mocks, assignable);
      ElemsCardinality(used);
      ElemsCardinality(mocks);
      SubsetCardinality(Elems(used), Elems(mocks));
      SubsetCardinality(Elems(mocks), Elems(used));
    } else {
      var c :| c in mocks && c !in used;
      UnusedCandidateRejectedWithoutReuse(params, mocks, assignable, c);
    }
  }

  /** One supplied object assignable to two parameters fills both and is
      counted twice, so the check fails although the object is used. */
  lemma ReusedCandidateRejected(params: Signature, mocks: seq<Obj>, assignable: Assignable, i: nat, j: nat)
    requires |mocks| == 1 && i < j < |params|
    requires assignable(params[i], mocks[0].runtimeType) && assignable(params[j], mocks[0].runtimeType)
    ensures |Used(params, |params|, mocks, assignable)| > |mocks|
  {
    UsedCountIsMatchedPositions(params, |params|, mocks, assignable);
    assert Lookup(params[i], mocks, assignable).Some?;
    assert Lookup(params[j], mocks, assignable).Some?;
    SubsetCardinality({i, j}, MatchedPositions(params, |params|, mocks, assignable));
  }

  // ---------------------------------------------------------------------------
  // newInstanceMockDependencies
  // ---------------------------------------------------------------------------

  /** Everything decided before the constructor is invoked. */
  function Plan(constructors: seq<Signature>, mocks: seq<Obj>, assignable: Assignable, base: nat): (r: Resolution)
  {
    if |constructors| == 0 then Rejected(NoAccessibleConstructor)
    else
      var k := BiggestConstructor(constructors);
      var params := constructors[k];
      if |Used(params, |params|, mocks, assignable)| != |mocks| then Rejected(UnusedSuppliedMock)
      else Chosen(k, Resolve(params, |params|, mocks, assignable, base))
  }

  /** The whole operation: the plan, then one constructor invocation. */
  function Run(constructors: seq<Signature>, mocks: seq<Obj>, assignable: Assignable, base: nat, construct: Invoke): (r: Outcome)
  {
    match Plan(constructors, mocks, assignable, base)
    case Rejected(f) => Failed(f)
    case Chosen(k, args) =>
      match construct(k, args)
      case Constructed(x) => Created(x)
      case Threw(c) => Failed(ConstructionFailed(c))
  }

  /** The three verdicts of the plan, with the count check stated as the
      number of parameters some supplied object is assignable to. */
  lemma PlanVerdict(constructors: seq<Signature>, mocks: seq<Obj>, assignable: Assignable, base: nat)
    ensures Plan(constructors, mocks, assignable, base) == Rejected(NoAccessibleConstructor)
        <==> |constructors| == 0
    ensures Plan(constructors, mocks, assignable, base) == Rejected(UnusedSuppliedMock)
        <==> |constructors| > 0
             && var params := constructors[BiggestConstructor(constructors)];
             |MatchedPositions(params, |params|, mocks, assignable)| != |mocks|
    ensures Plan(constructors, mocks, assignable, base).Chosen? ==>
      var r := Plan(constructors, mocks, assignable, base);
      && r.ctor < |constructors|
      && (forall j :: 0 <= j < |constructors| ==> |constructors[j]| <= |constructors[r.ctor]|)
      && (forall j :: 0 <= j < r.ctor ==> |constructors[j]| < |constructors[r.ctor]|)
      && |r.args| == |constructors[r.ctor]|
      && |MatchedPositions(constructors[r.ctor], |constructors[r.ctor]|, mocks, assignable)| == |mocks|
  {
    if |constructors| > 0 {
      var params := constructors[BiggestConstructor(constructors)];
      UsedCountIsMatchedPositions(params, |params|, mocks, assignable);
    }
  }

  /** With no supplied objects every parameter is mocked, in order, and the
      count check passes (0 = 0). */
  lemma EmptyCandidatesAllMocked(constructors: seq<Signature>, assignable: Assignable, base: nat)
    requires |constructors| > 0
    ensures var r := Plan(constructors, [], assignable, base);
      var params := constructors[BiggestConstructor(constructors)];
      && r.Chosen?
      && |r.args| == |params|
      && forall i :: 0 <= i < |params| ==> r.args[i] == Mocked(params[i], base + i)
  {
    var params := constructors[BiggestConstructor(constructors)];
    NothingUsedFromNone(params, |params|, assignable);
    forall i | 0 <= i < |params|
      ensures Resolve(params, |params|, [], assignable, base)[i] == Mocked(params[i], base + i)
    {
      ResolveAt(params, |params|, [], assignable, base, i);
      NothingUsedFromNone(params, i, assignable);
    }
  }

  /** The two argument checks come before the invocation: their failures do
      not depend on how the constructor behaves, and an instance is returned
      only when the plan chose a constructor and invoking it succeeded. */
  lemma ChecksPrecedeInvocation(constructors: seq<Signature>, mocks: seq<Obj>, assignable: Assignable, base: nat,
                                construct: Invoke, other: Invoke)
    ensures var r := Run(constructors, mocks, assignable, base, construct);
      r.Failed? && !r.failure.ConstructionFailed? ==> Run(constructors, mocks, assignable, base, other) == r
    ensures var r := Run(constructors, mocks, assignable, base, construct);
      var p := Plan(constructors, mocks, assignable, base);
      r.Created? <==> p.Chosen? && construct(p.ctor, p.args).Constructed?
    ensures var r := Run(constructors, mocks, assignable, base, construct);
      var p := Plan(constructors, mocks, assignable, base);
      r.Created? ==> r.instance == construct(p.ctor, p.args).instance
    ensures var p := Plan(constructors, mocks, assignable, base);
      forall c: Cause :: Run(constructors, mocks, assignable, base, construct) == Failed(ConstructionFailed(c))
        <==> p.Chosen? && construct(p.ctor, p.args) == Threw(c)
  {
  }

  /** The stand-in for `Mockito.mock`: every request creates a new object,
      numbered by its position in the log of requests. */
  class MockFactory {
    var created: seq<TypeName>

    constructor ()
      ensures created == []
    {
      created := [];
    }

    method Mock(t: TypeName) returns (m: Arg)
      modifies this
      ensures created == old(created) + [t]
      ensures m == Mocked(t, |old(created)|)
    {
      m := Mocked(t, |created|);
      created := created + [t];
    }
  }

  /** The operation itself. `factory` stands for the mocking library and
      `construct` for the reflective constructor call. */
  method NewInstanceMockDependencies(constructors: seq<Signature>, mocks: seq<Obj>, assignable: Assignable,
                                     factory: MockFactory, construct: Invoke) returns (r: Outcome)
    modifies factory
    ensures r == Run(constructors, mocks, assignable, |old(factory.created)|, construct)
    ensures factory.created == old(factory.created) +
      if |constructors| == 0 then []
      else
        var params := constructors[BiggestConstructor(constructors)];
        MockRequests(params, |params|, mocks, assignable)
  {
    if |constructors| == 0 {
      return Failed(NoAccessibleConstructor);
    }
    var cons := FindBiggestConstructor(constructors);
    var params := constructors[cons];
    var actualParams: seq<Arg> := [];
    var usedSuppliedMocks: seq<Obj> := [];
    ghost var base := |factory.created|;
    for i := 0 to |params|
      invariant actualParams == Resolve(params, i, mocks, assignable, base)
      invariant usedSuppliedMocks == Used(params, i, mocks, assignable)
      invariant factory.created == old(factory.created) + MockRequests(params, i, mocks, assignable)
    {
      var mock := FindMock(params[i], mocks, assignable);
      if mock.Some? {
        actualParams := actualParams + [Supplied(mock.value)];
        usedSuppliedMocks := usedSuppliedMocks + [mock.value];
      } else {
        var m := factory.Mock(params[i]);
        actualParams := actualParams + [m];
      }
    }
    if |usedSuppliedMocks| != |mocks| {
      return Failed(UnusedSuppliedMock);
    }
    match construct(cons, actualParams)
    case Constructed(x) =>
      return Created(x);
    case Threw(c) =>
      return Failed(ConstructionFailed(c));
  }
}
