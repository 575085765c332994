/**
 * Flag masks. The enums WeekDay, EducationLevel and JobType are bit flags;
 * a selection of several values is their bitwise OR, and JavaScript's
 * `&`, `|` and `^` work on 32-bit patterns, so a mask is a `bv32`.
 */
module Flags {

  /** A flag value: exactly one bit set. */
  predicate SingleBit(f: bv32)
  {
    f != 0 && f & (f - 1) == 0
  }

  /** The checkbox test `(mask & flag) !== 0`. */
  predicate IsChecked(mask: bv32, flag: bv32)
  {
    mask & flag != 0
  }

  /** `mask ^ flag`: the checkbox handlers' toggle. */
  function Toggle(mask: bv32, flag: bv32): (r: bv32)
    ensures r ^ flag == mask
    ensures r & !flag == mask & !flag
  {
    mask ^ flag
  }

  /** Toggling twice with the same flag restores the mask. */
  lemma ToggleTwice(mask: bv32, flag: bv32)
    ensures Toggle(Toggle(mask, flag), flag) == mask
  {
  }

  /**
   * Toggling a flag flips its checkbox and leaves every other flag's
   * checkbox as it was.
   */
  lemma ToggleFlipsOnlyItsBox(mask: bv32, flag: bv32, other: bv32)
    requires SingleBit(flag) && SingleBit(other)
    ensures IsChecked(Toggle(mask, flag), flag) == !IsChecked(mask, flag)
    ensures other != flag ==> IsChecked(Toggle(mask, flag), other) == IsChecked(mask, other)
  {
  }

  /** `xs.reduce((acc, x) => acc | x, 0)`. */
  function OrFold(xs: seq<bv32>): bv32
    decreases |xs|
  {
    if xs == [] then 0 else OrFold(xs[..|xs| - 1]) | xs[|xs| - 1]
  }

  /** Every bit of x is set in m. */
  predicate Covered(x: bv32, m: bv32)
  {
    x | m == m
  }

  lemma CoveredByOr(a: bv32, b: bv32)
    ensures Covered(a, a | b) && Covered(b, a | b)
  {
  }

  lemma CoveredTransitive(a: bv32, b: bv32, c: bv32)
    requires Covered(a, b) && Covered(b, c)
    ensures Covered(a, c)
  {
  }

  lemma OrBelow(a: bv32, b: bv32, m: bv32)
    requires Covered(a, m) && Covered(b, m)
    ensures Covered(a | b, m)
  {
  }

  lemma CoveredAntisymmetric(a: bv32, b: bv32)
    requires Covered(a, b) && Covered(b, a)
    ensures a == b
  {
  }

  /** Every element's bits are in the fold. */
  lemma {:induction false} OrFoldCovers(xs: seq<bv32>)
    ensures forall x :: x in xs ==> Covered(x, OrFold(xs))
    decreases |xs|
  {
    if xs != [] {
      var init := xs[..|xs| - 1];
      var last := xs[|xs| - 1];
      var whole := OrFold(xs);
      assert whole == OrFold(init) | last;
      OrFoldCovers(init);
      CoveredByOr(OrFold(init), last);
      forall x | x in xs
        ensures Covered(x, whole)
      {
        if x != last {
          assert x in init;
          CoveredTransitive(x, OrFold(init), whole);
        }
      }
    }
  }

  /** The fold sets no bit that no element sets. */
  lemma {:induction false} OrFoldLeast(xs: seq<bv32>, m: bv32)
    requires forall x :: x in xs ==> Covered(x, m)
    ensures Covered(OrFold(xs), m)
    decreases |xs|
  {
    if xs != [] {
      var init := xs[..|xs| - 1];
      assert forall x :: x in init ==> x in xs;
      OrFoldLeast(init, m);
      assert xs[|xs| - 1] in xs;
      OrBelow(OrFold(init), xs[|xs| - 1], m);
    } else {
      assert OrFold(xs) == 0;
      assert Covered(0, m);
    }
  }

  /**
   * The fold depends only on which values occur: order and repetition do
   * not matter.
   */
  lemma OrFoldSameMembers(xs: seq<bv32>, ys: seq<bv32>)
    requires forall x :: x in xs <==> x in ys
    ensures OrFold(xs) == OrFold(ys)
  {
    OrFoldCovers(xs);
    OrFoldCovers(ys);
    OrFoldLeast(xs, OrFold(ys));
    OrFoldLeast(ys, OrFold(xs));
    CoveredAntisymmetric(OrFold(xs), OrFold(ys));
  }

  /** The fold of single-bit flags has exactly their boxes checked. */
  lemma {:induction false} OrFoldChecks(xs: seq<bv32>, flag: bv32)
    requires SingleBit(flag)
    ensures IsChecked(OrFold(xs), flag) <==> exists x :: x in xs && IsChecked(x, flag)
    decreases |xs|
  {
    if xs != [] {
      var init := xs[..|xs| - 1];
      OrFoldChecks(init, flag);
      assert forall x :: x in xs <==> x in init || x == xs[|xs| - 1];
    }
  }
}
