# Lens4J in Dafny

A model of Lens4J, a small Java library with two independent, purely functional constructs:

- **Lens** (`Lens<S, T, A, B>`): a pair of caller-supplied functions, an accessor `S -> A` and a replacer `(B, S) -> T`. It offers `view`, `set`, `over` and composition with `andThen`.
- **SimpleLens** (`SimpleLens<T, F>`): the same lens at `Lens<T, T, F, F>`, with its own composition `andThenSimple`.
- **Either** (`Either<L, R>`): the closed union of `Left` (conventionally an error) and `Right` (conventionally a result). It offers unsafe unwraps, tag queries, the constructors `toLeft`, `toRight` and `pure`, and the combinators `or`, `lazyOr`, `map` and `flatMap`, which short-circuit on `Left`.

Every Java operation is a single expression, so every operation is a Dafny function and every promise is a lemma or an `ensures` clause.

Files:

- `lens.dfy`, module `Lenses`: the lens datatype, its operations, the lens laws (PutGet, GetPut, PutPut) as predicates, extensional equivalence of lenses, and the composition lemmas.
- `simple_lens.dfy`, module `SimpleLenses`: `SimpleLens` as a type synonym, `AndThenSimple`, and its agreement with `AndThen`.
- `either.dfy`, module `Eithers`: the Either datatype with the members of `Either`, `Left` and `Right`, the functor and monad laws, and the short-circuit lemmas over chains of `map` and `flatMap`.
- `lens_examples.dfy`, module `LensExamples`: the box scenarios of the test suite, both at the concrete values the tests use and for all boxes.

Design choices:

- A lens holds two function values, which Dafny cannot compare with `==`. Two lenses are therefore compared with the ghost predicate `Equivalent`: same `View` and same `Set` on every input.
- The lens laws are obligations on the caller-supplied functions. `Lens.java` asks only for purity and non-mutation (src/main/java/net/nergi/lens4j/Lens.java:31-35), which Dafny's total, pure `->` functions give for free. The laws are predicates here (`PutGet`, `GetPut`, `PutPut`, `WellBehaved`), not invariants of the datatype, and the model proves that composition keeps them.
- The wrong-variant unwraps throw `ClassCastException` in Java. Here they are preconditions: `FromLeft` requires `Left?` and `FromRight` requires `Right?`.
- `lazyOr` takes a zero-argument function `() -> Either<L, R>` in place of a `Supplier`.
- The documentation of `map` and `flatMap` says a `Left` is returned as `this`. The code builds a new `Left` with the same payload under the new type. The model follows the code; as values the two are equal.
- The test suite declares its lenses as `Lens<TestBox, Integer>` with two type parameters, which is the shape of `SimpleLens`, not of the four-parameter `Lens`. Its scenarios are modelled with simple lenses.

## Model

| member | source | states |
|---|---|---|
| `Lenses.Lens.View` | src/main/java/net/nergi/lens4j/Lens.java:51-53 | `view(s)` is the accessor applied to `s` |
| `Lenses.Lens.Set` | src/main/java/net/nergi/lens4j/Lens.java:73-75 | `set(b, s)` is the replacer applied to `(b, s)` |
| `Lenses.Lens.Over` | src/main/java/net/nergi/lens4j/Lens.java:62-64 | `over(m, s)` is `set` applied to the mapped view of `s` |
| `Lenses.Lens.AndThen` | src/main/java/net/nergi/lens4j/Lens.java:88-90 | the composite views `next` through this lens, and sets by setting the inner part with `next` and then the whole with this lens |
| `Lenses.SetIgnoresAccessor` | src/main/java/net/nergi/lens4j/Lens.java:73-75 | `set(b, s)` is the replacer applied to `(b, s)`; replacing the accessor by any other function leaves it unchanged |
| `Lenses.OverConstantIsSet` | src/main/java/net/nergi/lens4j/Lens.java:62-75 | `over` with a constant mapper `_ => b` equals `set(b, s)` |
| `Lenses.AndThenOver` | src/main/java/net/nergi/lens4j/Lens.java:88-90 | `l.andThen(n).over(m, s) == l.over(a => n.over(m, a), s)` |
| `Lenses.AndThenAssociative` | src/main/java/net/nergi/lens4j/Lens.java:77-90 | `(l1.andThen(l2)).andThen(l3)` and `l1.andThen(l2.andThen(l3))` agree on every view and every set |
| `Lenses.AndThenRespectsEquivalence` | src/main/java/net/nergi/lens4j/Lens.java:88-90 | composing lenses that agree everywhere gives composites that agree everywhere |
| `Lenses.AndThenPutGet` | src/main/java/net/nergi/lens4j/Lens.java:88-90 | if both lenses read back what they set, so does their composite |
| `Lenses.AndThenGetPut` | src/main/java/net/nergi/lens4j/Lens.java:88-90 | if setting back the viewed part is a no-op for both lenses, it is for their composite |
| `Lenses.AndThenPutPut` | src/main/java/net/nergi/lens4j/Lens.java:88-90 | last-update-wins holds for the composite when it holds for both lenses and the outer lens reads back what it sets |
| `Lenses.AndThenWellBehaved` | src/main/java/net/nergi/lens4j/Lens.java:88-90 | composing two lenses that obey all three laws gives a lens that obeys them |
| `SimpleLenses.MakeSimple` | src/main/java/net/nergi/lens4j/SimpleLens.java:12-21 | a simple lens built from a getter and a setter views, sets and maps exactly as those functions do |
| `SimpleLenses.AndThenSimple` | src/main/java/net/nergi/lens4j/SimpleLens.java:23-26 | the simple composite agrees with `andThen` on every view and every set |
| `SimpleLenses.AndThenSimpleView` | src/main/java/net/nergi/lens4j/SimpleLens.java:25 | `andThenSimple(next).view(t) == next.view(view(t))` |
| `SimpleLenses.AndThenSimpleSet` | src/main/java/net/nergi/lens4j/SimpleLens.java:25 | `andThenSimple(next).set(g, t) == set(next.set(g, view(t)), t)` |
| `SimpleLenses.AndThenSimpleAssociative` | src/main/java/net/nergi/lens4j/SimpleLens.java:24-26 | simple composition is associative on every view and every set |
| `SimpleLenses.AndThenSimpleWellBehaved` | src/main/java/net/nergi/lens4j/SimpleLens.java:24-26 | simple composition keeps the three lens laws |
| `Eithers.Either.FromLeft` | src/main/java/net/nergi/lens4j/extra/Left.java:13-16 | unwrapping a `Left` gives the payload it was built from; it is defined only on a `Left` |
| `Eithers.Either.FromRight` | src/main/java/net/nergi/lens4j/extra/Right.java:18-21 | unwrapping a `Right` gives the payload it was built from; it is defined only on a `Right` |
| `Eithers.Either.IsLeft` | src/main/java/net/nergi/lens4j/extra/Either.java:35-36 | the tag query never fails; when true the value is the `Left` of its `FromLeft`, when false the `Right` of its `FromRight` |
| `Eithers.Either.IsRight` | src/main/java/net/nergi/lens4j/extra/Either.java:38-39 | the tag query never fails and is always the negation of `IsLeft` |
| `Eithers.Either.Or` | src/main/java/net/nergi/lens4j/extra/Either.java:72-82 | a `Right` receiver is returned as is; a `Left` receiver gives `other`, so a `Right` alternative recovers the failure; the result is a `Left` exactly when both operands are |
| `Eithers.Either.LazyOr` | src/main/java/net/nergi/lens4j/extra/Either.java:84-91 | gives the same value as `or` on the supplied alternative; on a `Right` it is the receiver |
| `Eithers.Either.Map` | src/main/java/net/nergi/lens4j/extra/Either.java:93-109 | the tag is kept; a `Left` keeps its payload; a `Right` payload is replaced by the mapper's result |
| `Eithers.Either.FlatMap` | src/main/java/net/nergi/lens4j/extra/Either.java:111-126 | a `Left` is kept with its payload; on a `Right` the mapper's result is returned without re-wrapping; a `Right` result needs a `Right` receiver |
| `Eithers.ToLeft` | src/main/java/net/nergi/lens4j/extra/Either.java:41-51 | the result is a `Left` whose unwrap is the given item |
| `Eithers.ToRight` | src/main/java/net/nergi/lens4j/extra/Either.java:53-63 | the result is a `Right` whose unwrap is the given item |
| `Eithers.Pure` | src/main/java/net/nergi/lens4j/extra/Either.java:65-70 | `pure(x)` is `toRight(x)` |
| `Eithers.LeftQueries` | src/main/java/net/nergi/lens4j/extra/Left.java:13-31 | `Left(x).fromLeft() == x`, `Left(x).isLeft()` holds and `Left(x).isRight()` does not |
| `Eithers.RightQueries` | src/main/java/net/nergi/lens4j/extra/Right.java:13-31 | `Right(y).fromRight() == y`, `Right(y).isRight()` holds and `Right(y).isLeft()` does not |
| `Eithers.OrAssociative` | src/main/java/net/nergi/lens4j/extra/Either.java:72-82 | `or`, the Alternative choice, is associative |
| `Eithers.LazyOrIgnoresSupplierOnRight` | src/main/java/net/nergi/lens4j/extra/Either.java:84-91 | on a `Right`, `lazyOr` returns the receiver whatever the supplier would produce |
| `Eithers.MapIdentity` | src/main/java/net/nergi/lens4j/extra/Either.java:93-109 | functor identity law: mapping the identity function changes nothing |
| `Eithers.MapComposition` | src/main/java/net/nergi/lens4j/extra/Either.java:93-109 | functor composition law: mapping `f` then `g` is mapping their composition |
| `Eithers.PureLeftIdentity` | src/main/java/net/nergi/lens4j/extra/Either.java:111-126 | monad left identity: `pure(x).flatMap(f) == f(x)` |
| `Eithers.PureRightIdentity` | src/main/java/net/nergi/lens4j/extra/Either.java:111-126 | monad right identity: `e.flatMap(pure) == e` |
| `Eithers.FlatMapAssociative` | src/main/java/net/nergi/lens4j/extra/Either.java:111-126 | monad associativity of `flatMap` |
| `Eithers.MapIsFlatMapPure` | src/main/java/net/nergi/lens4j/extra/Either.java:93-126 | `map(f)` equals `flatMap` of `pure` after `f` |
| `Eithers.LeftAbsorbsChain` | src/main/java/net/nergi/lens4j/extra/Either.java:101-121 | any chain of `map` and `flatMap` steps applied to `Left(l)` yields `Left(l)` |
| `Eithers.MapChainOnRight` | src/main/java/net/nergi/lens4j/extra/Either.java:101-109 | a chain of `map` steps on `Right(x)` is `Right` of the mappers applied to `x` in order |
| `Eithers.RightResultNeedsRightStart` | src/main/java/net/nergi/lens4j/extra/Either.java:111-126 | a chain that ends in a `Right` started from a `Right`: a failure is never recovered by `map` or `flatMap` |
| `LensExamples.FieldLensesWellBehaved` | src/test/java/net/nergi/lens4j/LensTest.java:104-112 | the test's two field lenses and its wrapper lens obey all three lens laws |
| `LensExamples.NestedLensesWellBehaved` | src/test/java/net/nergi/lens4j/LensTest.java:114-115 | the two composites through the wrapper obey all three lens laws |
| `LensExamples.SurfaceView` | src/test/java/net/nergi/lens4j/LensTest.java:10-29 | the field lenses view 5 and 10 in `Box(5, 10)` |
| `LensExamples.SurfaceOver` | src/test/java/net/nergi/lens4j/LensTest.java:31-61 | mapping `i + 5` over one field changes only that field; `Box(5, 10)` becomes `Box(10, 10)` or `Box(5, 15)` |
| `LensExamples.SurfaceSet` | src/test/java/net/nergi/lens4j/LensTest.java:63-92 | setting one field changes only that field; the set values 15 and 20 read back |
| `LensExamples.NestedView` | src/test/java/net/nergi/lens4j/LensTest.java:95-120 | the composites view the inner box's fields, 5 and 10 in the test's wrapper |
| `LensExamples.NestedOver` | src/test/java/net/nergi/lens4j/LensTest.java:122-159 | mapping through a composite changes only the focused inner field |
| `LensExamples.NestedSet` | src/test/java/net/nergi/lens4j/LensTest.java:161-196 | setting through a composite changes only the focused inner field; 15 and 20 read back |
| `LensExamples.NestedSimpleAgrees` | src/main/java/net/nergi/lens4j/SimpleLens.java:23-26 | on the test's lenses, `andThenSimple` and `andThen` give equivalent composites |

## Left out

- Exceptions: the `ClassCastException` of a wrong-variant unwrap is a precondition, not an exception object. Failures raised inside caller-supplied functions cannot occur, since Dafny functions are total.
- Evaluation order: `lazyOr`'s supplier being called only on a `Left`, and `or` evaluating its argument eagerly, are not observable for pure Dafny functions; only the results are modelled.
- Mutation and aliasing: the tests' checks that the original box is unchanged, and the deliberately non-final test fields, hold trivially for immutable datatypes.
- Purity of caller-supplied functions (src/main/java/net/nergi/lens4j/Lens.java:31-35) is a runtime obligation in Java; Dafny's `->` functions are pure by construction.
- Java generics: wildcard variance (`? super R`, `? extends S`) and the `sealed`/`permits` declarations. A closed datatype captures the sealing.
- `Eithers.RunChain`: chains of `map` and `flatMap` are modelled over one payload type; chains whose steps change the payload type are not.
- The test suite's two-parameter `Lens` API is not modelled; its scenarios are reproduced through `SimpleLens`.
- `LensExamples.SurfaceOver`, `LensExamples.NestedOver`: the box fields are unbounded integers, so these lemmas do not capture the 32-bit wrap-around of Java's `int` that the test's `i -> i + 5` undergoes at 2147483647; their for-all-boxes clauses hold only where `content + 5` stays within Java's `int` range.
- No identity lens: the library does not provide one.
