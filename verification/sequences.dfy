/**
  `Array.prototype.filter` as the screens use it: keep the elements that satisfy
  a predicate, in their original order.
*/
module Sequences {

  /** The elements of `s` that satisfy `keep`, in the order they appear in `s`. */
  function Keep<T(!new)>(s: seq<T>, keep: T -> bool): (r: seq<T>)
    ensures |r| <= |s|
    ensures forall x :: x in r <==> x in s && keep(x)
    ensures multiset(r) <= multiset(s)
  {
    if s == [] then []
    else
      assert s == [s[0]] + s[1..];
      (if keep(s[0]) then [s[0]] else []) + Keep(s[1..], keep)
  }

  /** Filtering distributes over concatenation: the kept elements of a prefix come first. */
  lemma {:induction false} KeepAppend<T(!new)>(s: seq<T>, t: seq<T>, keep: T -> bool)
    ensures Keep(s + t, keep) == Keep(s, keep) + Keep(t, keep)
  {
    if s == [] {
      assert s + t == t;
    } else {
      assert (s + t)[1..] == s[1..] + t;
      KeepAppend(s[1..], t, keep);
    }
  }

  /** Filtering a single element keeps it exactly when it satisfies the predicate. */
  lemma KeepSingleton<T(!new)>(x: T, keep: T -> bool)
    ensures Keep([x], keep) == if keep(x) then [x] else []
  {
    assert [x][1..] == [];
  }

  /** Two predicates that agree on every element of `s` keep the same elements. */
  lemma {:induction false} KeepCongruent<T(!new)>(s: seq<T>, p: T -> bool, q: T -> bool)
    requires forall x :: x in s ==> (p(x) <==> q(x))
    ensures Keep(s, p) == Keep(s, q)
  {
    if s != [] {
      KeepCongruent(s[1..], p, q);
    }
  }

  /** Filtering twice is filtering once by the conjunction of the two predicates. */
  lemma {:induction false} KeepKeep<T(!new)>(s: seq<T>, p: T -> bool, q: T -> bool, both: T -> bool)
    requires forall x :: x in s ==> (both(x) <==> p(x) && q(x))
    ensures Keep(Keep(s, p), q) == Keep(s, both)
  {
    if s != [] {
      KeepKeep(s[1..], p, q, both);
      if p(s[0]) {
        assert Keep(s, p) == [s[0]] + Keep(s[1..], p);
        assert Keep(s, p)[0] == s[0];
        assert Keep(s, p)[1..] == Keep(s[1..], p);
      } else {
        assert Keep(s, p) == Keep(s[1..], p);
      }
    }
  }

  /**
    When every element satisfies exactly one of `p`, `q`, `r`, `o`, the four
    filtered lengths add up to the length of `s`.
  */
  lemma {:induction false} KeepPartition<T(!new)>(s: seq<T>, p: T -> bool, q: T -> bool, r: T -> bool, o: T -> bool)
    requires forall x :: x in s ==>
      (if p(x) then 1 else 0) + (if q(x) then 1 else 0) + (if r(x) then 1 else 0) + (if o(x) then 1 else 0) == 1
    ensures |Keep(s, p)| + |Keep(s, q)| + |Keep(s, r)| + |Keep(s, o)| == |s|
  {
    if s != [] {
      assert s[0] in s;
      assert forall x :: x in s[1..] ==> x in s;
      KeepPartition(s[1..], p, q, r, o);
    }
  }

  /** Taking the same element out of two equal multisets leaves equal multisets. */
  lemma RemoveFromBoth<T>(s: seq<T>, t1: seq<T>, x: T, t2: seq<T>)
    requires multiset(s + [x]) == multiset(t1 + [x] + t2)
    ensures multiset(s) == multiset(t1 + t2)
  {
    calc {
      multiset(s) + multiset{x};
      multiset(s + [x]);
      multiset(t1 + [x] + t2);
      multiset(t1) + multiset{x} + multiset(t2);
      multiset(t1 + t2) + multiset{x};
    }
    assert multiset(s) == multiset(s) + multiset{x} - multiset{x};
  }

  /** Filtering keeps every occurrence of a kept element and none of the others. */
  lemma {:induction false} KeepCount<T(!new)>(s: seq<T>, keep: T -> bool, y: T)
    ensures multiset(Keep(s, keep))[y] == if keep(y) then multiset(s)[y] else 0
  {
    if s != [] {
      KeepCount(s[1..], keep, y);
      assert s == [s[0]] + s[1..];
      assert multiset(s) == multiset{s[0]} + multiset(s[1..]);
      var head := if keep(s[0]) then [s[0]] else [];
      assert multiset(Keep(s, keep)) == multiset(head) + multiset(Keep(s[1..], keep));
    }
  }

  /** Filtering two reorderings of the same elements gives reorderings of each other. */
  lemma KeepMultiset<T(!new)>(s: seq<T>, t: seq<T>, keep: T -> bool)
    requires multiset(s) == multiset(t)
    ensures multiset(Keep(s, keep)) == multiset(Keep(t, keep))
  {
    forall y
      ensures multiset(Keep(s, keep))[y] == multiset(Keep(t, keep))[y]
    {
      KeepCount(s, keep, y);
      KeepCount(t, keep, y);
    }
  }
}
