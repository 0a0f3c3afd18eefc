/** Sequences without repetition, and facts about concatenation, named so that proofs can ask
    for them. */
module Seqs {
  ghost predicate Distinct<T>(xs: seq<T>) {
    forall i, j :: 0 <= i < j < |xs| ==> xs[i] != xs[j]
  }

  function Elements<T(==)>(xs: seq<T>): set<T> {
    set x | x in xs
  }

  lemma Assoc<T>(a: seq<T>, b: seq<T>, c: seq<T>)
    ensures a + (b + c) == a + b + c
  {
  }

  lemma Units<T>(a: seq<T>)
    ensures a + [] == a && [] + a == a
  {
  }

  /** The head and tail of a concatenation. */
  lemma ConcatHead<T>(a: seq<T>, b: seq<T>)
    requires a != []
    ensures a + b != [] && (a + b)[0] == a[0] && (a + b)[1..] == a[1..] + b
  {
  }

  /** Taking the head off. */
  lemma HeadCount<T>(xs: seq<T>, x: T)
    requires xs != []
    ensures multiset(xs)[x] == multiset(xs[1..])[x] + if xs[0] == x then 1 else 0
    ensures x in xs <==> x == xs[0] || x in xs[1..]
  {
    assert xs == [xs[0]] + xs[1..];
  }
}
