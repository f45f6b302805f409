# MockHelper in Dafny

A model of `MockHelper.newInstanceMockDependencies` from the fdc-mock-helper
test utility, with its two private helpers `findMock` and
`findBiggestConstructor`. The operation builds an instance of a class for a
unit test. It uses the declared constructor with the most parameters. Each
formal parameter gets the first supplied object whose runtime class is
assignable to it, or else a fresh mock. The call is refused when the number of
parameters filled from supplied objects differs from the number of supplied
objects.

How the model represents the Java world:

- A class is the sequence of its declared constructors (`seq<Signature>`). Each
  constructor is the sequence of its formal parameter types, in declared order.
- A type is its class name (`TypeName`). `Class.isAssignableFrom` is a relation
  `assignable(formal, actual)` that the caller supplies; nothing is assumed
  about it.
- A supplied object is `Obj(id, runtimeType)`. Its identity is the value.
- `Mockito.mock` is the `MockFactory` class. It keeps the log `created` of the
  types it was asked for. The mock it returns is `Mocked(type, serial)`, where
  `serial` is the request's position in the log. So a mock is distinct from
  every supplied object and from every other mock.
- The reflective constructor call is a function `construct(ctorIndex, args)`
  that the caller supplies. It yields an instance or one of the three checked
  exceptions of `Constructor.newInstance`.
- The result is `Created(instance)` or `Failed(f)`. Here `f` is one of
  `NoAccessibleConstructor`, `UnusedSuppliedMock`, or `ConstructionFailed(cause)`,
  which keeps the exception as its cause.

The files:

- `mock_helper.dfy` (module `MockHelper`) has the specification functions, the
  three methods with their loops and the lemmas. `FirstAssignable`/`Lookup`
  specify `findMock`. `BiggestAmong` specifies `findBiggestConstructor`.
  `Used`, `MockRequests` and `Resolve` give the contents of `usedSuppliedMocks`,
  the mock factory's log and `actualParams` after the first `n` parameters.
  `Plan` and `Run` specify the whole operation.
- `mock_helper_examples.dfy` (module `MockHelperExamples`) holds the scenarios
  of `MockHelperTest`, stated on concrete classes, and two scenarios that show
  how the used-count check behaves.

What the source says about the two checks, and what the code does:

- The exception message of the count check, "At least one supplied mock
  wasn't used" (`MockHelper.java:60`), and the comment of the test that
  exercises it, that the method throws "instead of silently ignoring the
  argument" (`MockHelperTest.java:53-57`), describe a check that every
  supplied object is passed to some parameter. The code instead compares the
  number of parameters filled from supplied objects, counted with repeats,
  with the number of supplied objects (`MockHelper.java:53`,
  `MockHelper.java:59`). The model follows the code. Consequences:
  - A sole supplied object that fills two parameters is refused although it
    is used (`ReusedCandidateRejected`,
    `OneCandidateForTwoParametersIsRejected`).
  - When one supplied object fills two parameters, another supplied object
    can go unused and the call still succeeds: the unused object is silently
    ignored, whether it is of the same class
    (`SecondSameTypedCandidateIgnored`) or of an unrelated one such as a
    `String` (`UnrelatedCandidateIgnoredWhenAnotherIsReused`).
  - The count check and "every supplied object is used" agree when neither
    the supplied objects nor the filled parameters repeat an object
    (`CountCheckMeansAllUsed`).
- The doc comment of `newInstanceMockDependencies` speaks of a public
  constructor (`MockHelper.java:26`). The code takes every declared
  constructor and makes it accessible, so the model's class is the list of
  all declared constructors.
- The doc comment leaves the choice among constructors of equal arity
  unspecified (`MockHelper.java:30-33`). The code keeps the earliest one in
  the order of the `getDeclaredConstructors` array, because it compares with
  a strict `>`. The model does the same (`BiggestAmong`); that array order
  is itself left unspecified by Java, so the model takes it as given.

## Model

| member | source | states |
|---|---|---|
| `MockHelper.FirstAssignable` | src/main/java/com/freiheit/testing/mock/MockHelper.java:71-79 | the result is at most the number of supplied objects; no supplied object before it is assignable to the parameter; when it is an index, the object there is assignable, so it is the first match in list order |
| `MockHelper.LookupMeaning` | src/main/java/com/freiheit/testing/mock/MockHelper.java:71-79 | `findMock` gives `null` exactly when no supplied object is assignable; otherwise it gives an assignable supplied object, and none before it is assignable |
| `MockHelper.FindMock` | src/main/java/com/freiheit/testing/mock/MockHelper.java:71-79 | the scan with early return yields exactly the first assignable supplied object, or none |
| `MockHelper.BiggestAmong` | src/main/java/com/freiheit/testing/mock/MockHelper.java:86-96 | the chosen index is in range; its constructor has at least as many parameters as every other; every earlier constructor has strictly fewer |
| `MockHelper.BiggestIsUnique` | src/main/java/com/freiheit/testing/mock/MockHelper.java:86-96 | any index that is maximal and earlier than all other maximal ones is the one chosen, so the choice is determined by the order of the constructor array |
| `MockHelper.FindBiggestConstructor` | src/main/java/com/freiheit/testing/mock/MockHelper.java:86-96 | the scan with strict `>` returns the earliest constructor of largest arity |
| `MockHelper.Used` | src/main/java/com/freiheit/testing/mock/MockHelper.java:47-53 | `usedSuppliedMocks` gets at most one entry per parameter |
| `MockHelper.UsedAreSupplied` | src/main/java/com/freiheit/testing/mock/MockHelper.java:50-53 | every entry of `usedSuppliedMocks` is one of the supplied objects |
| `MockHelper.MockRequests` | src/main/java/com/freiheit/testing/mock/MockHelper.java:49-56 | the mock factory is asked at most once per parameter |
| `MockHelper.Resolve` | src/main/java/com/freiheit/testing/mock/MockHelper.java:46-57 | the argument list has exactly one entry per formal parameter |
| `MockHelper.ResolveAt` | src/main/java/com/freiheit/testing/mock/MockHelper.java:49-57 | argument `i` is the first supplied object assignable to parameter `i`, that very object; with no match it is a mock of parameter `i`'s type, numbered by the mocks requested before it |
| `MockHelper.MockedArgIsItsRequest` | src/main/java/com/freiheit/testing/mock/MockHelper.java:54-56 | each mocked argument is the object the factory created for that parameter's own request, for that parameter's type |
| `MockHelper.MockedArgsDistinct` | src/main/java/com/freiheit/testing/mock/MockHelper.java:54-56 | two mocked parameters get different mocks, in parameter order, because the factory is called once for each |
| `MockHelper.UsedCountIsMatchedPositions` | src/main/java/com/freiheit/testing/mock/MockHelper.java:49-57 | the size of `usedSuppliedMocks` is the number of parameters some supplied object is assignable to, counted with repeats; the factory is called exactly once for each other parameter |
| `MockHelper.UnusedCandidateRejectedWithoutReuse` | src/main/java/com/freiheit/testing/mock/MockHelper.java:59-61 | when no object fills two parameters, a supplied object that fills none makes the count fall short |
| `MockHelper.CountCheckMeansAllUsed` | src/main/java/com/freiheit/testing/mock/MockHelper.java:59-61 | without repeated objects, the count check passes if and only if every supplied object is used |
| `MockHelper.ReusedCandidateRejected` | src/main/java/com/freiheit/testing/mock/MockHelper.java:49-61 | a single supplied object assignable to two parameters is counted twice, so the check fails |
| `MockHelper.PlanVerdict` | src/main/java/com/freiheit/testing/mock/MockHelper.java:40-61 | the call fails for lack of constructors if and only if there are none; it fails the count check if and only if the number of matched parameters differs from the number of supplied objects; otherwise it picks the earliest constructor of largest arity, with one argument per parameter |
| `MockHelper.EmptyCandidatesAllMocked` | src/main/java/com/freiheit/testing/mock/MockHelper.java:49-61 | with nothing supplied the check passes and parameter `i` gets the factory's `i`-th new mock, of its own type |
| `MockHelper.ChecksPrecedeInvocation` | src/main/java/com/freiheit/testing/mock/MockHelper.java:59-67 | the two argument failures do not depend on the constructor; an instance is returned exactly when a constructor was chosen and its invocation succeeded; a thrown exception becomes `ConstructionFailed` with that cause |
| `MockHelper.MockFactory.Mock` | src/main/java/com/freiheit/testing/mock/MockHelper.java:55 | one request is appended to the log, and the returned mock is numbered by its position |
| `MockHelper.NewInstanceMockDependencies` | src/main/java/com/freiheit/testing/mock/MockHelper.java:38-68 | the result is `Run` of the inputs; the factory log grows by the requests of the chosen constructor's unmatched parameters, in order, and by nothing when the class has no constructor |
| `MockHelperExamples.ShouldCreateInstanceWithBiggestConstructor` | src/test/java/com/freiheit/testing/mock/MockHelperTest.java:18-26 | with nothing supplied, the inner class's constructor `(MockHelperTest, DependencyClassA)` is chosen over `(MockHelperTest)`; the enclosing instance and the dependency get the factory's next two mocks, in that order |
| `MockHelperExamples.ShouldUseSuppliedInstanceForDependency` | src/test/java/com/freiheit/testing/mock/MockHelperTest.java:31-40 | the supplied `DependencyClassA` itself is passed to the larger constructor; only the enclosing instance is mocked |
| `MockHelperExamples.ShouldThrowIfNoConstructorAccessible` | src/test/java/com/freiheit/testing/mock/MockHelperTest.java:45-51 | an interface without constructors fails, whatever the constructor call would do |
| `MockHelperExamples.ShouldThrowIfSuppliedArgumentNotUsed` | src/test/java/com/freiheit/testing/mock/MockHelperTest.java:58-67 | a supplied `String` that no parameter takes makes the call fail |
| `MockHelperExamples.OneCandidateForTwoParametersIsRejected` | src/main/java/com/freiheit/testing/mock/MockHelper.java:49-61 | one object supplied for a two-parameter constructor of its class is refused |
| `MockHelperExamples.SecondSameTypedCandidateIgnored` | src/main/java/com/freiheit/testing/mock/MockHelper.java:71-79 | of two supplied objects of the parameters' class, the first fills both parameters, the second is never passed, and the call succeeds |
| `MockHelperExamples.UnrelatedCandidateIgnoredWhenAnotherIsReused` | src/main/java/com/freiheit/testing/mock/MockHelper.java:49-61 | a supplied `String` that no parameter takes is silently ignored when another supplied object fills two parameters: the call succeeds with that object in both places |

## Left out

- Reflection itself is not modelled: `getDeclaredConstructors`, `setAccessible`,
  `getParameterTypes` and `newInstance`. The constructor array is a given
  sequence, since Java leaves its order unspecified. The constructor call is
  one abstract function.
- `clazz.cast` is not modelled. The instance comes from a constructor of
  `clazz`, so the cast cannot fail.
- The generic result type `T` is not modelled. An instance is an `Obj`.
- `Mockito.mock` is not modelled beyond creating a new, distinguishable object
  of the requested type. What a mock does is irrelevant here.
- `MockHelper.MockFactory.Mock`: always succeeds. `Mockito.mock` throws for a
  type it cannot mock, such as a primitive or a final class like `String`. A
  primitive parameter always reaches it, since `isAssignableFrom` never holds
  between a primitive and a boxed runtime class. That exception escapes
  unwrapped from the resolving loop, before the count check; it is an outcome
  the model does not have.
- `MockHelper.NewInstanceMockDependencies`: its outcomes do not include the
  exceptions that escape unwrapped. These are the mock factory's failure above
  and the unchecked exceptions of `Constructor.newInstance`, such as
  `IllegalArgumentException` and `ExceptionInInitializerError`, which the
  catch at `MockHelper.java:65` does not wrap. Only the three checked
  exceptions that it wraps are modelled, as `ConstructionFailed`.
- Null supplied objects are not modelled. The source would throw a
  `NullPointerException` at `mock.getClass()`. A supplied `Obj` can never be
  null.
- The exception classes and messages are not modelled. The model keeps only
  which of the three failures happened, and the cause of a failed constructor
  call.
- The private utility constructor is not modelled. It has no logic.
- `MockHelper.Used`: its own contract states only the length bound. That the
  entries are supplied objects is `UsedAreSupplied`, and their number is
  `UsedCountIsMatchedPositions`.
- `MockHelper.MockRequests`: its own contract states only the length bound.
  The exact count is `UsedCountIsMatchedPositions`, and how each request
  matches a mocked argument is `MockedArgIsItsRequest`.
