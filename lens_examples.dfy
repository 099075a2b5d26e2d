/**
 * The box scenarios of Lens4J's test suite: a two-field box, a wrapper around
 * a box, a lens per field and the composite lenses through the wrapper. The
 * test declares its lenses with two type parameters; here they are simple
 * lenses, `Lens<Box, Box, int, int>`.
 */
module LensExamples {
  import opened Lenses
  import opened SimpleLenses

  datatype Box = Box(content1: int, content2: int)

  datatype RecBox = RecBox(innerBox: Box)

  /** Focuses on the first field; its replacer keeps the second. */
  function Content1(): SimpleLens<Box, int>
  {
    MakeSimple((b: Box) => b.content1, (i: int, b: Box) => Box(i, b.content2))
  }

  /** Focuses on the second field; its replacer keeps the first. */
  function Content2(): SimpleLens<Box, int>
  {
    MakeSimple((b: Box) => b.content2, (i: int, b: Box) => Box(b.content1, i))
  }

  /** Focuses on the wrapped box; its replacer builds a fresh wrapper. */
  function Inner(): SimpleLens<RecBox, Box>
  {
    MakeSimple((r: RecBox) => r.innerBox, (b: Box, r: RecBox) => RecBox(b))
  }

  function Nested1(): SimpleLens<RecBox, int>
  {
    Inner().AndThen(Content1())
  }

  function Nested2(): SimpleLens<RecBox, int>
  {
    Inner().AndThen(Content2())
  }

  /** All three field lenses obey the lens laws. */
  lemma FieldLensesWellBehaved()
    ensures WellBehaved(Content1()) && WellBehaved(Content2()) && WellBehaved(Inner())
  {
  }

  /** The composites obey the lens laws because composition keeps them. */
  lemma NestedLensesWellBehaved()
    ensures WellBehaved(Nested1()) && WellBehaved(Nested2())
  {
    FieldLensesWellBehaved();
    AndThenWellBehaved(Inner(), Content1());
    AndThenWellBehaved(Inner(), Content2());
  }

  lemma SurfaceView()
    ensures Content1().View(Box(5, 10)) == 5
    ensures Content2().View(Box(5, 10)) == 10
  {
  }

  /** Mapping over one field rebuilds the box with only that field changed. */
  lemma SurfaceOver(b: Box)
    ensures Content1().Over(i => i + 5, b) == Box(b.content1 + 5, b.content2)
    ensures Content2().Over(i => i + 5, b) == Box(b.content1, b.content2 + 5)
    ensures Content1().Over(i => i + 5, Box(5, 10)) == Box(10, 10)
    ensures Content2().Over(i => i + 5, Box(5, 10)) == Box(5, 15)
  {
  }

  lemma SurfaceSet(b: Box, v: int)
    ensures Content1().Set(v, b) == Box(v, b.content2)
    ensures Content2().Set(v, b) == Box(b.content1, v)
    ensures Content1().Set(15, Box(5, 10)).content1 == 15
    ensures Content2().Set(20, Box(5, 10)).content2 == 20
  {
  }

  lemma NestedView(r: RecBox)
    ensures Nested1().View(r) == r.innerBox.content1
    ensures Nested2().View(r) == r.innerBox.content2
    ensures Nested1().View(RecBox(Box(5, 10))) == 5
    ensures Nested2().View(RecBox(Box(5, 10))) == 10
  {
  }

  lemma NestedOver(r: RecBox)
    ensures Nested1().Over(i => i + 5, r) == RecBox(Box(r.innerBox.content1 + 5, r.innerBox.content2))
    ensures Nested2().Over(i => i + 5, r) == RecBox(Box(r.innerBox.content1, r.innerBox.content2 + 5))
    ensures Nested1().Over(i => i + 5, RecBox(Box(5, 10))).innerBox.content1 == 10
    ensures Nested2().Over(i => i + 5, RecBox(Box(5, 10))).innerBox.content2 == 15
  {
  }

  /** Setting through a composite changes only the focused field of the rebuilt inner box. */
  lemma NestedSet(r: RecBox, v: int)
    ensures Nested1().Set(v, r) == RecBox(Box(v, r.innerBox.content2))
    ensures Nested2().Set(v, r) == RecBox(Box(r.innerBox.content1, v))
    ensures Nested1().Set(15, RecBox(Box(5, 10))).innerBox.content1 == 15
    ensures Nested2().Set(20, RecBox(Box(5, 10))).innerBox.content2 == 20
  {
  }

  /** The simple composition gives the same composites as the general one. */
  lemma NestedSimpleAgrees()
    ensures Equivalent(AndThenSimple(Inner(), Content1()), Nested1())
    ensures Equivalent(AndThenSimple(Inner(), Content2()), Nested2())
  {
  }
}
