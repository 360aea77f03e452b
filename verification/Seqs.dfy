/** Sequence facts shared by the deriver and its tests: the element set of a
    list, duplicate-freedom, and the link between the two and multisets. */
module Seqs {

  /** The set of elements of `s`: what Go builds when it turns a list into a
      `map[string]bool`. */
  function Elems<T(==)>(s: seq<T>): set<T>
  {
    set x | x in s
  }

  /** No element occurs twice in `s`. */
  predicate NoDup<T(==)>(s: seq<T>)
  {
    forall i, j :: 0 <= i < j < |s| ==> s[i] != s[j]
  }

  /** `s` lists every element of `xs` exactly once, in some order. */
  predicate Enumerates<T(==)>(s: seq<T>, xs: set<T>)
  {
    NoDup(s) && Elems(s) == xs
  }

  /** In a duplicate-free sequence every element has multiplicity one. */
  lemma {:induction false} NoDupMultiplicity<T>(s: seq<T>, x: T)
    requires NoDup(s)
    ensures multiset(s)[x] == if x in s then 1 else 0
  {
    if s != [] {
      var t := s[1..];
      assert s == [s[0]] + t;
      assert NoDup(t) by {
        forall i, j | 0 <= i < j < |t| ensures t[i] != t[j] {
          assert t[i] == s[i + 1] && t[j] == s[j + 1];
        }
      }
      NoDupMultiplicity(t, x);
      assert s[0] !in t by {
        forall k | 0 <= k < |t| ensures t[k] != s[0] {
          assert t[k] == s[k + 1];
        }
      }
      assert multiset(s) == multiset{s[0]} + multiset(t);
    }
  }

  /** Two enumerations of the same set are permutations of each other: they
      agree as multisets, whatever their order. */
  lemma EnumerationsArePermutations<T>(a: seq<T>, b: seq<T>, xs: set<T>)
    requires Enumerates(a, xs) && Enumerates(b, xs)
    ensures multiset(a) == multiset(b)
  {
    forall x ensures multiset(a)[x] == multiset(b)[x] {
      NoDupMultiplicity(a, x);
      NoDupMultiplicity(b, x);
      assert x in a <==> x in Elems(a);
      assert x in b <==> x in Elems(b);
    }
  }
}
