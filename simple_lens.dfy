/**
 * The same-type specialisation of the lens: a `SimpleLens<T, F>` focuses on a
 * field of type `F` inside a whole of type `T`, and setting the field gives
 * back a `T`. It is exactly a general lens at `Lens<T, T, F, F>`, so `View`,
 * `Set` and `Over` are the general ones; only its composition is its own.
 */
module SimpleLenses {
  import opened Lenses

  type SimpleLens<!T(!new), !F(!new)> = Lens<T, T, F, F>

  /** Builds a simple lens from a getter and an immutable setter. */
  function MakeSimple<T(!new), F(!new)>(accessor: T -> F, replacer: (F, T) -> T): (l: SimpleLens<T, F>)
    ensures forall t :: l.View(t) == accessor(t)
    ensures forall f, t :: l.Set(f, t) == replacer(f, t)
    ensures forall m: F -> F, t :: l.Over(m, t) == replacer(m(accessor(t)), t)
  {
    Lens(accessor, replacer)
  }

  /** Runs `next` after `l`, keeping the result a simple lens. */
  function AndThenSimple<T(!new), F(!new), G(!new)>(l: SimpleLens<T, F>, next: SimpleLens<F, G>): (r: SimpleLens<T, G>)
    ensures Equivalent(r, l.AndThen(next))
  {
    MakeSimple(t => next.View(l.View(t)), (g, t) => l.Set(next.Set(g, l.View(t)), t))
  }

  /** Viewing through the composite views through `l` and then through `next`. */
  lemma AndThenSimpleView<T(!new), F(!new), G(!new)>(l: SimpleLens<T, F>, next: SimpleLens<F, G>, t: T)
    ensures AndThenSimple(l, next).View(t) == next.View(l.View(t))
  {
  }

  /** Setting through the composite sets the inner field and then the outer one. */
  lemma AndThenSimpleSet<T(!new), F(!new), G(!new)>(l: SimpleLens<T, F>, next: SimpleLens<F, G>, g: G, t: T)
    ensures AndThenSimple(l, next).Set(g, t) == l.Set(next.Set(g, l.View(t)), t)
  {
  }

  /** Simple composition is associative. */
  lemma AndThenSimpleAssociative<T(!new), F(!new), G(!new), H(!new)>(l1: SimpleLens<T, F>, l2: SimpleLens<F, G>, l3: SimpleLens<G, H>)
    ensures Equivalent(AndThenSimple(AndThenSimple(l1, l2), l3), AndThenSimple(l1, AndThenSimple(l2, l3)))
  {
    AndThenRespectsEquivalence(AndThenSimple(l1, l2), l1.AndThen(l2), l3, l3);
    AndThenRespectsEquivalence(l1, l1, AndThenSimple(l2, l3), l2.AndThen(l3));
    AndThenAssociative(l1, l2, l3);
  }

  /** Simple composition keeps the lens laws. */
  lemma AndThenSimpleWellBehaved<T(!new), F(!new), G(!new)>(l: SimpleLens<T, F>, next: SimpleLens<F, G>)
    requires WellBehaved(l) && WellBehaved(next)
    ensures WellBehaved(AndThenSimple(l, next))
  {
    AndThenWellBehaved(l, next);
  }
}
