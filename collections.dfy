/** Id sequences without repetition, and iteration over an unordered collection. */
module Collections {

  /** No element occurs twice in `xs`. */
  predicate NoDups<T(==)>(xs: seq<T>) {
    forall i, j :: 0 <= i < j < |xs| ==> xs[i] != xs[j]
  }

  /**
   * Iterating over a Python collection that holds each element of `s` once
   * (the values of a storage dict, an ORM relationship, a derived list): every
   * element is visited exactly once, in an order this model leaves open.
   */
  method Enumerate(s: set<string>) returns (xs: seq<string>)
    ensures NoDups(xs)
    ensures forall x :: x in xs <==> x in s
  {
    xs := [];
    var rest := s;
    while rest != {}
      invariant rest <= s
      invariant NoDups(xs)
      invariant forall x :: x in xs <==> x in s && x !in rest
      decreases rest
    {
      var x :| x in rest;
      xs := xs + [x];
      rest := rest - {x};
    }
  }

  /** A repetition-free sequence and the set of its elements are the same multiset. */
  lemma {:induction false} DistinctMultiset(xs: seq<string>, s: set<string>)
    requires NoDups(xs)
    requires forall x :: x in xs <==> x in s
    ensures multiset(xs) == multiset(s)
  {
    if xs == [] {
      assert s == {};
    } else {
      var init, last := xs[..|xs| - 1], xs[|xs| - 1];
      assert xs == init + [last];
      assert last !in init;
      assert forall x :: x in init <==> x in s - {last};
      DistinctMultiset(init, s - {last});
      forall y
        ensures multiset(s)[y] == (multiset(s - {last}) + multiset{last})[y]
      {
      }
    }
  }

  /** Turning a union of disjoint sets into a multiset adds the two multisets. */
  lemma DisjointUnionMultiset(a: set<string>, b: set<string>)
    requires a !! b
    ensures multiset(a + b) == multiset(a) + multiset(b)
  {
    forall y
      ensures multiset(a + b)[y] == (multiset(a) + multiset(b))[y]
    {
    }
  }

  /** A sequence in which no element is counted twice has no repetition. */
  lemma NoDupsFromCounts(xs: seq<string>)
    requires forall x :: multiset(xs)[x] <= 1
    ensures NoDups(xs)
  {
    forall i, j | 0 <= i < j < |xs|
      ensures xs[i] != xs[j]
    {
      assert xs == xs[..j] + xs[j..];
      assert xs[i] in xs[..j] && xs[j] in xs[j..];
      assert multiset(xs)[xs[j]] == multiset(xs[..j])[xs[j]] + multiset(xs[j..])[xs[j]];
    }
  }
}
