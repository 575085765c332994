/** Subsequences and `Array.prototype.filter`. */
module Seqs {

  /** a can be obtained from b by deleting elements, keeping the order of the rest. */
  predicate IsSubseq<T(==)>(a: seq<T>, b: seq<T>)
    decreases |b|
  {
    if b == [] then a == []
    else (a != [] && a[0] == b[0] && IsSubseq(a[1..], b[1..])) || IsSubseq(a, b[1..])
  }

  lemma {:induction false} SubseqMembers<T>(a: seq<T>, b: seq<T>)
    requires IsSubseq(a, b)
    ensures |a| <= |b|
    ensures forall x :: x in a ==> x in b
    decreases |b|
  {
    if b != [] {
      if a != [] && a[0] == b[0] && IsSubseq(a[1..], b[1..]) {
        SubseqMembers(a[1..], b[1..]);
        assert forall x :: x in a ==> x == a[0] || x in a[1..];
      } else {
        SubseqMembers(a, b[1..]);
      }
    }
  }

  lemma {:induction false} SubseqTransitive<T>(a: seq<T>, b: seq<T>, c: seq<T>)
    requires IsSubseq(a, b) && IsSubseq(b, c)
    ensures IsSubseq(a, c)
    decreases |c|
  {
    if c == [] {
    } else if IsSubseq(b, c[1..]) {
      SubseqTransitive(a, b, c[1..]);
    } else {
      assert b != [] && b[0] == c[0] && IsSubseq(b[1..], c[1..]);
      if a != [] && a[0] == b[0] && IsSubseq(a[1..], b[1..]) {
        SubseqTransitive(a[1..], b[1..], c[1..]);
      } else {
        SubseqTransitive(a, b[1..], c[1..]);
      }
    }
  }

  lemma {:induction false} SubseqReflexive<T>(a: seq<T>)
    ensures IsSubseq(a, a)
    decreases |a|
  {
    if a != [] {
      SubseqReflexive(a[1..]);
    }
  }

  /**
   * `xs.filter(keep)`: the elements that pass, in their original order,
   * and every element that passes.
   */
  function FilterSeq<T(==)>(xs: seq<T>, keep: T -> bool): (r: seq<T>)
    ensures IsSubseq(r, xs)
    ensures forall x :: x in r ==> keep(x)
    ensures forall x :: x in xs ==> (x in r <==> keep(x))
    ensures (forall x :: x in xs ==> keep(x)) ==> r == xs
    decreases |xs|
  {
    if xs == [] then []
    else
      var rest := FilterSeq(xs[1..], keep);
      assert forall x :: x in xs ==> x == xs[0] || x in xs[1..];
      if keep(xs[0]) then
        assert xs == [xs[0]] + xs[1..];
        [xs[0]] + rest
      else rest
  }

  /** Filtering a list with one more element filters that element on its own. */
  lemma {:induction false} FilterAppend<T>(xs: seq<T>, y: T, keep: T -> bool)
    ensures FilterSeq(xs + [y], keep) == FilterSeq(xs, keep) + (if keep(y) then [y] else [])
    decreases |xs|
  {
    if xs == [] {
      assert [] + [y] == [y];
      assert [y][1..] == [];
    } else {
      assert (xs + [y])[0] == xs[0];
      assert (xs + [y])[1..] == xs[1..] + [y];
      FilterAppend(xs[1..], y, keep);
    }
  }

  /** How many times x occurs in xs. */
  function Count<T(==)>(xs: seq<T>, x: T): (n: nat)
    ensures n <= |xs|
    ensures n > 0 <==> x in xs
    decreases |xs|
  {
    if xs == [] then 0 else (if xs[0] == x then 1 else 0) + Count(xs[1..], x)
  }

  lemma {:induction false} CountAppend<T>(xs: seq<T>, y: T, x: T)
    ensures Count(xs + [y], x) == Count(xs, x) + (if y == x then 1 else 0)
    decreases |xs|
  {
    if xs != [] {
      assert (xs + [y])[1..] == xs[1..] + [y];
      CountAppend(xs[1..], y, x);
    } else {
      assert ([y])[1..] == [];
    }
  }
}
