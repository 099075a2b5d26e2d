/**
 * The Either sum type of Lens4J: a value is a `Left`, conventionally an
 * error, or a `Right`, conventionally a successful result. The continuation
 * combinators short-circuit on a `Left`.
 */
module Eithers {

  datatype Either<L, R> = Left(leftItem: L) | Right(rightItem: R)
  {
    /** Unwraps a `Left`; `Right.fromLeft` throws, so a `Left` is required. */
    function FromLeft(): (item: L)
      requires Left?
      ensures this == Left(item)
    {
      leftItem
    }

    /** Unwraps a `Right`; `Left.fromRight` throws, so a `Right` is required. */
    function FromRight(): (item: R)
      requires Right?
      ensures this == Right(item)
    {
      rightItem
    }

    /** Tag query; never fails, and tells which of the two unwraps succeeds. */
    function IsLeft(): (b: bool)
      ensures b ==> Left? && this == Left(FromLeft())
      ensures !b ==> Right? && this == Right(FromRight())
    {
      Left?
    }

    /** Tag query; never fails, and always disagrees with `IsLeft`. */
    function IsRight(): (b: bool)
      ensures b == !IsLeft()
    {
      Right?
    }

    /** The first `Right` of `this` and `other`, and the rightmost `Left` when both are `Left`. */
    function Or(other: Either<L, R>): (r: Either<L, R>)
      ensures r.Left? <==> Left? && other.Left?
      ensures Left? ==> r == other
      ensures Right? ==> r == this
    {
      if Left? then other else this
    }

    /** `Or` whose alternative is produced only when it is needed. */
    function LazyOr(other: () -> Either<L, R>): (r: Either<L, R>)
      ensures r == Or(other())
      ensures Right? ==> r == this
    {
      if Left? then other() else this
    }

    /** Applies `mapper` to a `Right` payload; a `Left` keeps its payload under the new type. */
    function Map<S>(mapper: R -> S): (r: Either<L, S>)
      ensures r.Left? <==> Left?
      ensures Left? ==> r.leftItem == leftItem
      ensures Right? ==> r.rightItem == mapper(rightItem)
    {
      match this
      case Left(l) => Left(l)
      case Right(x) => Right(mapper(x))
    }

    /** Sequences an Either-producing step after a `Right`; a `Left` short-circuits. */
    function FlatMap<S>(mapper: R -> Either<L, S>): (r: Either<L, S>)
      ensures Left? ==> r == Left(leftItem)
      ensures Right? ==> r == mapper(rightItem)
      ensures r.Right? ==> Right?
    {
      match this
      case Left(l) => Left(l)
      case Right(x) => mapper(x)
    }
  }

  /** Wraps an item as a `Left`. */
  function ToLeft<L, R>(item: L): (e: Either<L, R>)
    ensures e.IsLeft() && e.FromLeft() == item
  {
    Left(item)
  }

  /** Wraps an item as a `Right`. */
  function ToRight<L, R>(item: R): (e: Either<L, R>)
    ensures e.IsRight() && e.FromRight() == item
  {
    Right(item)
  }

  /** The applicative unit: an alias of `ToRight`. */
  function Pure<L, R>(item: R): (e: Either<L, R>)
    ensures e == ToRight(item)
  {
    ToRight(item)
  }

  // Unwrapping and tags

  lemma LeftQueries<L, R>(x: L)
    ensures Either<L, R>.Left(x).FromLeft() == x
    ensures Either<L, R>.Left(x).IsLeft() && !Either<L, R>.Left(x).IsRight()
  {
  }

  lemma RightQueries<L, R>(y: R)
    ensures Either<L, R>.Right(y).FromRight() == y
    ensures Either<L, R>.Right(y).IsRight() && !Either<L, R>.Right(y).IsLeft()
  {
  }

  // Alternative

  /** `Or` is associative, as an Alternative's choice should be. */
  lemma OrAssociative<L, R>(a: Either<L, R>, b: Either<L, R>, c: Either<L, R>)
    ensures a.Or(b).Or(c) == a.Or(b.Or(c))
  {
  }

  /** On a `Right`, whatever the supplier would produce is irrelevant. */
  lemma LazyOrIgnoresSupplierOnRight<L, R>(e: Either<L, R>, s1: () -> Either<L, R>, s2: () -> Either<L, R>)
    requires e.Right?
    ensures e.LazyOr(s1) == e.LazyOr(s2) == e
  {
  }

  // Functor laws

  lemma MapIdentity<L, R>(e: Either<L, R>)
    ensures e.Map(x => x) == e
  {
  }

  lemma MapComposition<L, R, S, U>(e: Either<L, R>, f: R -> S, g: S -> U)
    ensures e.Map(f).Map(g) == e.Map(x => g(f(x)))
  {
  }

  // Monad laws

  lemma PureLeftIdentity<L, R, S>(x: R, f: R -> Either<L, S>)
    ensures Pure<L, R>(x).FlatMap(f) == f(x)
  {
  }

  lemma PureRightIdentity<L, R>(e: Either<L, R>)
    ensures e.FlatMap(x => Pure<L, R>(x)) == e
  {
  }

  lemma FlatMapAssociative<L, R, S, U>(e: Either<L, R>, f: R -> Either<L, S>, g: S -> Either<L, U>)
    ensures e.FlatMap(f).FlatMap(g) == e.FlatMap(x => f(x).FlatMap(g))
  {
  }

  /** `Map` is `FlatMap` followed by `Pure`. */
  lemma MapIsFlatMapPure<L, R, S>(e: Either<L, R>, f: R -> S)
    ensures e.Map(f) == e.FlatMap(x => Pure<L, S>(f(x)))
  {
  }

  // Short-circuiting chains

  /** One continuation step of a chain over a fixed payload type. */
  datatype Step<L, !R> = MapStep(f: R -> R) | FlatMapStep(g: R -> Either<L, R>)

  function ApplyStep<L, R>(e: Either<L, R>, step: Step<L, R>): Either<L, R>
  {
    match step
    case MapStep(f) => e.Map(f)
    case FlatMapStep(g) => e.FlatMap(g)
  }

  /** Applies the steps left to right. */
  function RunChain<L, R>(e: Either<L, R>, steps: seq<Step<L, R>>): Either<L, R>
    decreases |steps|
  {
    if steps == [] then e else RunChain(ApplyStep(e, steps[0]), steps[1..])
  }

  /** A `Left` passes unchanged through any chain of `Map` and `FlatMap`. */
  lemma {:induction false} LeftAbsorbsChain<L, R>(l: L, steps: seq<Step<L, R>>)
    ensures RunChain(Left(l), steps) == Left(l)
    decreases |steps|
  {
    if steps != [] {
      LeftAbsorbsChain(l, steps[1..]);
    }
  }

  /** The mappers of a chain of `MapStep`s applied in order to a plain value. */
  function ApplyMappers<L, R>(x: R, steps: seq<Step<L, R>>): R
    requires forall i :: 0 <= i < |steps| ==> steps[i].MapStep?
    decreases |steps|
  {
    if steps == [] then x else ApplyMappers(steps[0].f(x), steps[1..])
  }

  /** A chain of `Map` steps on a `Right` is the `Right` of its mappers applied in order. */
  lemma {:induction false} MapChainOnRight<L, R>(x: R, steps: seq<Step<L, R>>)
    requires forall i :: 0 <= i < |steps| ==> steps[i].MapStep?
    ensures RunChain(Right(x), steps) == Right(ApplyMappers(x, steps))
    decreases |steps|
  {
    if steps != [] {
      MapChainOnRight(steps[0].f(x), steps[1..]);
    }
  }

  /** A chain that ends in a `Right` started from a `Right`. */
  lemma {:induction false} RightResultNeedsRightStart<L, R>(e: Either<L, R>, steps: seq<Step<L, R>>)
    requires RunChain(e, steps).Right?
    ensures e.Right?
    decreases |steps|
  {
    if steps != [] {
      RightResultNeedsRightStart(ApplyStep(e, steps[0]), steps[1..]);
    }
  }
}
