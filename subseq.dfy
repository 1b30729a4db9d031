/** Order-preserving sublists: what filtering a list, or appending to it only some of
    another list's elements, produces. */
module Subsequences {
  /** a is b with some elements removed, the rest in their order. */
  predicate SubseqOf<T(==)>(a: seq<T>, b: seq<T>)
    decreases |b|
  {
    if a == [] then true
    else if b == [] then false
    else if a[|a| - 1] == b[|b| - 1] then SubseqOf(a[..|a| - 1], b[..|b| - 1])
    else SubseqOf(a, b[..|b| - 1])
  }

  lemma {:induction false} SubseqExtend<T>(a: seq<T>, b: seq<T>, x: T)
    requires SubseqOf(a, b)
    ensures SubseqOf(a, b + [x])
    decreases |a| + |b|, 1
  {
    var bx := b + [x];
    assert bx[..|bx| - 1] == b;
    if a != [] && a[|a| - 1] == x {
      SubseqDropLast(a, b);
    }
  }

  lemma {:induction false} SubseqDropLast<T>(a: seq<T>, b: seq<T>)
    requires a != [] && SubseqOf(a, b)
    ensures SubseqOf(a[..|a| - 1], b)
    decreases |a| + |b|, 0
  {
    var m := |b| - 1;
    if a[|a| - 1] == b[m] {
      SubseqExtend(a[..|a| - 1], b[..m], b[m]);
      assert b[..m] + [b[m]] == b;
    } else {
      SubseqDropLast(a, b[..m]);
      var a' := a[..|a| - 1];
      if a' != [] {
        SubseqExtend(a', b[..m], b[m]);
        assert b[..m] + [b[m]] == b;
      }
    }
  }

  lemma SubseqBoth<T>(a: seq<T>, b: seq<T>, x: T)
    requires SubseqOf(a, b)
    ensures SubseqOf(a + [x], b + [x])
  {
    assert (a + [x])[..|a|] == a;
    assert (b + [x])[..|b|] == b;
  }

  /** Every element of a subsequence is an element of the sequence. */
  lemma {:induction false} SubseqMembers<T>(a: seq<T>, b: seq<T>)
    requires SubseqOf(a, b)
    ensures forall x :: x in a ==> x in b
    decreases |b|
  {
    if a != [] {
      var m := |b| - 1;
      var n := |a| - 1;
      if a[n] == b[m] {
        SubseqMembers(a[..n], b[..m]);
        assert a == a[..n] + [a[n]];
        assert b == b[..m] + [b[m]];
      } else {
        SubseqMembers(a, b[..m]);
        assert b == b[..m] + [b[m]];
      }
    }
  }

  /** A sequence is a subsequence of itself. */
  lemma {:induction false} SubseqRefl<T>(a: seq<T>)
    ensures SubseqOf(a, a)
    decreases |a|
  {
    if a != [] {
      SubseqRefl(a[..|a| - 1]);
    }
  }
}
