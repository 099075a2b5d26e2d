/**
 * The general, type-changing lens of Lens4J.
 *
 * A lens focuses on a part of type `A` inside a whole of type `S`; replacing
 * that part by a value of type `B` rebuilds a whole of type `T`. The two
 * caller-supplied functions are stored as they are, and every operation is a
 * single application or composition of them.
 */
module Lenses {

  datatype Lens<!S(!new), T(!new), A(!new), !B(!new)> = Lens(accessor: S -> A, replacer: (B, S) -> T)
  {
    /** The part of `instance` this lens focuses on. */
    function View(instance: S): (a: A)
      ensures a == accessor(instance)
    {
      accessor(instance)
    }

    /** Rebuilds `instance` with its focused part replaced by `value`; the accessor plays no part. */
    function Set(value: B, instance: S): (r: T)
      ensures r == replacer(value, instance)
    {
      replacer(value, instance)
    }

    /** Rebuilds `instance` with its focused part run through `mapper`. */
    function Over(mapper: A -> B, instance: S): (r: T)
      ensures r == Set(mapper(View(instance)), instance)
    {
      replacer(mapper(View(instance)), instance)
    }

    /**
     * Runs `next` after this lens: viewing drills from the outer whole to the
     * inner part, setting rebuilds the inner whole and then the outer one.
     */
    function AndThen<C(!new), D(!new)>(next: Lens<A, B, C, D>): (r: Lens<S, T, C, D>)
      ensures forall s :: r.View(s) == next.View(View(s))
      ensures forall d, s :: r.Set(d, s) == Set(next.Set(d, View(s)), s)
    {
      Lens(s => next.View(View(s)), (d, s) => Set(next.Set(d, View(s)), s))
    }
  }

  /** Two lenses are interchangeable when they agree on every view and every set. */
  ghost predicate Equivalent<S(!new), T(!new), A(!new), B(!new)>(l: Lens<S, T, A, B>, m: Lens<S, T, A, B>)
  {
    && (forall s :: l.View(s) == m.View(s))
    && (forall b, s :: l.Set(b, s) == m.Set(b, s))
  }

  // The lens laws. They are obligations on the caller-supplied functions and
  // are stated for lenses that do not change types.

  /** Reading back what was just set yields what was set. */
  ghost predicate PutGet<S(!new), A(!new)>(l: Lens<S, S, A, A>)
  {
    forall a, s :: l.View(l.Set(a, s)) == a
  }

  /** Setting back what was read changes nothing. */
  ghost predicate GetPut<S(!new), A(!new)>(l: Lens<S, S, A, A>)
  {
    forall s :: l.Set(l.View(s), s) == s
  }

  /** Only the last of two updates survives. */
  ghost predicate PutPut<S(!new), A(!new)>(l: Lens<S, S, A, A>)
  {
    forall a1, a2, s :: l.Set(a2, l.Set(a1, s)) == l.Set(a2, s)
  }

  ghost predicate WellBehaved<S(!new), A(!new)>(l: Lens<S, S, A, A>)
  {
    PutGet(l) && GetPut(l) && PutPut(l)
  }

  /** `set` never consults the accessor: swapping it for any other function leaves every result alone. */
  lemma SetIgnoresAccessor<S(!new), T(!new), A(!new), B(!new)>(l: Lens<S, T, A, B>, other: S -> A, value: B, instance: S)
    ensures Lens(other, l.replacer).Set(value, instance) == l.Set(value, instance)
    ensures l.Set(value, instance) == l.replacer(value, instance)
  {
  }

  /** `over` with a mapper that ignores the viewed part is `set`. */
  lemma OverConstantIsSet<S(!new), T(!new), A(!new), B(!new)>(l: Lens<S, T, A, B>, value: B, instance: S)
    ensures l.Over(_ => value, instance) == l.Set(value, instance)
  {
  }

  /** Mapping over a composite lens maps the inner lens over the outer one. */
  lemma AndThenOver<S(!new), T(!new), A(!new), B(!new), C(!new), D(!new)>(l: Lens<S, T, A, B>, n: Lens<A, B, C, D>, mapper: C -> D, instance: S)
    ensures l.AndThen(n).Over(mapper, instance) == l.Over(a => n.Over(mapper, a), instance)
  {
  }

  /** Composition is associative: lenses compose as functions do. */
  lemma AndThenAssociative<S(!new), T(!new), A(!new), B(!new), C(!new), D(!new), E(!new), F(!new)>(l1: Lens<S, T, A, B>, l2: Lens<A, B, C, D>, l3: Lens<C, D, E, F>)
    ensures Equivalent(l1.AndThen(l2).AndThen(l3), l1.AndThen(l2.AndThen(l3)))
  {
  }

  /** Composing with equivalent lenses gives equivalent composites. */
  lemma AndThenRespectsEquivalence<S(!new), T(!new), A(!new), B(!new), C(!new), D(!new)>(l: Lens<S, T, A, B>, l': Lens<S, T, A, B>, n: Lens<A, B, C, D>, n': Lens<A, B, C, D>)
    requires Equivalent(l, l') && Equivalent(n, n')
    ensures Equivalent(l.AndThen(n), l'.AndThen(n'))
  {
  }

  /** If both lenses read back what they set, so does their composite. */
  lemma AndThenPutGet<S(!new), A(!new), C(!new)>(l: Lens<S, S, A, A>, n: Lens<A, A, C, C>)
    requires PutGet(l) && PutGet(n)
    ensures PutGet(l.AndThen(n))
  {
  }

  /** If setting back what was read is a no-op for both lenses, it is for their composite. */
  lemma AndThenGetPut<S(!new), A(!new), C(!new)>(l: Lens<S, S, A, A>, n: Lens<A, A, C, C>)
    requires GetPut(l) && GetPut(n)
    ensures GetPut(l.AndThen(n))
  {
  }

  /** Last-update-wins survives composition, given that the outer lens also reads back what it sets. */
  lemma AndThenPutPut<S(!new), A(!new), C(!new)>(l: Lens<S, S, A, A>, n: Lens<A, A, C, C>)
    requires PutGet(l) && PutPut(l) && PutPut(n)
    ensures PutPut(l.AndThen(n))
  {
  }

  /** Composition keeps all three lens laws. */
  lemma AndThenWellBehaved<S(!new), A(!new), C(!new)>(l: Lens<S, S, A, A>, n: Lens<A, A, C, C>)
    requires WellBehaved(l) && WellBehaved(n)
    ensures WellBehaved(l.AndThen(n))
  {
    AndThenPutGet(l, n);
    AndThenGetPut(l, n);
    AndThenPutPut(l, n);
  }
}
