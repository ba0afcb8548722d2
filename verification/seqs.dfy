/** Sequence helpers shared by the model: filtering, distinctness and permutations. */
module Seqs {

  /** The elements of `s` that satisfy `f`, in their original order (a list comprehension with a guard). */
  function Filter<T(!new)>(s: seq<T>, f: T -> bool): (r: seq<T>)
    ensures |r| <= |s|
    ensures forall x :: x in r <==> x in s && f(x)
  {
    if s == [] then [] else (if f(s[0]) then [s[0]] else []) + Filter(s[1..], f)
  }

  lemma {:induction false} FilterAppend<T(!new)>(a: seq<T>, b: seq<T>, f: T -> bool)
    ensures Filter(a + b, f) == Filter(a, f) + Filter(b, f)
  {
    if a == [] {
      assert a + b == b;
    } else {
      assert (a + b)[1..] == a[1..] + b;
      FilterAppend(a[1..], b, f);
    }
  }

  /** Filtering keeps exactly the copies of the elements that pass. */
  lemma {:induction false} FilterMultiplicity<T(!new)>(s: seq<T>, f: T -> bool, x: T)
    ensures multiset(Filter(s, f))[x] == if f(x) then multiset(s)[x] else 0
  {
    if s != [] {
      assert s == [s[0]] + s[1..];
      FilterMultiplicity(s[1..], f, x);
    }
  }

  /** Filtering two permutations of each other gives permutations of each other. */
  lemma FilterPermutation<T(!new)>(s: seq<T>, t: seq<T>, f: T -> bool)
    requires multiset(s) == multiset(t)
    ensures multiset(Filter(s, f)) == multiset(Filter(t, f))
  {
    forall x
      ensures multiset(Filter(s, f))[x] == multiset(Filter(t, f))[x]
    {
      FilterMultiplicity(s, f, x);
      FilterMultiplicity(t, f, x);
    }
  }

  /** Filtering with a guard every element passes changes nothing. */
  lemma {:induction false} FilterAll<T(!new)>(s: seq<T>, f: T -> bool)
    requires forall x :: x in s ==> f(x)
    ensures Filter(s, f) == s
  {
    if s != [] {
      FilterAll(s[1..], f);
    }
  }

  /** No element occurs twice. */
  predicate Distinct<T(==)>(s: seq<T>) {
    forall i, j :: 0 <= i < j < |s| ==> s[i] != s[j]
  }

  lemma DistinctCons<T>(x: T, t: seq<T>)
    ensures Distinct([x] + t) <==> x !in t && Distinct(t)
  {
    if x !in t && Distinct(t) {
      forall i, j | 0 <= i < j < |[x] + t|
        ensures ([x] + t)[i] != ([x] + t)[j]
      {
        if i > 0 {
          assert ([x] + t)[i] == t[i - 1];
        }
        assert ([x] + t)[j] == t[j - 1];
      }
    }
    if Distinct([x] + t) {
      forall k | 0 <= k < |t|
        ensures t[k] != x
      {
        assert ([x] + t)[0] == x && ([x] + t)[k + 1] == t[k];
      }
      forall i, j | 0 <= i < j < |t|
        ensures t[i] != t[j]
      {
        assert ([x] + t)[i + 1] == t[i] && ([x] + t)[j + 1] == t[j];
      }
    }
  }

  /** A sequence is duplicate-free exactly when every element occurs at most once in its multiset. */
  lemma {:induction false} DistinctMultiset<T>(s: seq<T>)
    ensures Distinct(s) <==> forall x :: multiset(s)[x] <= 1
  {
    if s == [] {
    } else {
      DistinctMultiset(s[1..]);
      assert s == [s[0]] + s[1..];
      if Distinct(s) {
        assert s[0] !in s[1..];
        forall x
          ensures multiset(s)[x] <= 1
        {
        }
      } else {
        var i, j :| 0 <= i < j < |s| && s[i] == s[j];
        if i == 0 {
          assert s[0] in s[1..] by { assert s[1..][j - 1] == s[j]; }
          assert multiset(s)[s[0]] >= 2;
        } else {
          assert !Distinct(s[1..]) by { assert s[1..][i - 1] == s[1..][j - 1]; }
          var y :| multiset(s[1..])[y] > 1;
          assert multiset(s)[y] > 1;
        }
      }
    }
  }

  /** A permutation of a duplicate-free sequence is duplicate-free. */
  lemma DistinctPermutation<T>(s: seq<T>, t: seq<T>)
    requires multiset(s) == multiset(t)
    requires Distinct(t)
    ensures Distinct(s)
  {
    DistinctMultiset(t);
    DistinctMultiset(s);
  }

  /** A duplicate-free sequence has as many distinct elements as positions. */
  lemma {:induction false} DistinctCardinality<T>(s: seq<T>)
    requires Distinct(s)
    ensures |set x | x in s| == |s|
  {
    if s != [] {
      DistinctCardinality(s[1..]);
      assert (set x | x in s) == (set x | x in s[1..]) + {s[0]};
      assert s[0] !in s[1..];
    }
  }

  /** Filtering with a guard no element passes leaves nothing. */
  lemma {:induction false} FilterNone<T(!new)>(s: seq<T>, f: T -> bool)
    requires forall x :: x in s ==> !f(x)
    ensures Filter(s, f) == []
  {
    if s != [] {
      FilterNone(s[1..], f);
    }
  }

  /** When no two positions of `s` both pass `f`, at most one element survives the filter. */
  lemma {:induction false} FilterAtMostOne<T(!new)>(s: seq<T>, f: T -> bool)
    requires forall i, j :: 0 <= i < j < |s| && f(s[i]) ==> !f(s[j])
    ensures |Filter(s, f)| <= 1
  {
    if s != [] {
      FilterAtMostOne(s[1..], f);
      if f(s[0]) {
        forall x | x in s[1..]
          ensures !f(x)
        {
          var k :| 0 <= k < |s[1..]| && s[1..][k] == x;
          assert s[k + 1] == x;
        }
        FilterNone(s[1..], f);
      }
    }
  }

  /** Filters with guards that agree on every element give the same result. */
  lemma {:induction false} FilterCongruent<T(!new)>(s: seq<T>, f: T -> bool, g: T -> bool)
    requires forall x :: x in s ==> f(x) == g(x)
    ensures Filter(s, f) == Filter(s, g)
  {
    if s != [] {
      FilterCongruent(s[1..], f, g);
    }
  }

  /** Filtering twice is filtering once by both guards. */
  lemma {:induction false} FilterFilter<T(!new)>(s: seq<T>, f: T -> bool, g: T -> bool, h: T -> bool)
    requires forall x :: x in s ==> (h(x) <==> f(x) && g(x))
    ensures Filter(Filter(s, f), g) == Filter(s, h)
  {
    if s != [] {
      FilterFilter(s[1..], f, g, h);
      FilterAppend(if f(s[0]) then [s[0]] else [], Filter(s[1..], f), g);
    }
  }

  /** A guard that is the disjoint union of two others keeps as many elements as both together. */
  lemma {:induction false} FilterDisjointLength<T(!new)>(s: seq<T>, f: T -> bool, g: T -> bool, h: T -> bool)
    requires forall x :: x in s ==> (h(x) <==> f(x) || g(x)) && !(f(x) && g(x))
    ensures |Filter(s, h)| == |Filter(s, f)| + |Filter(s, g)|
  {
    if s != [] {
      FilterDisjointLength(s[1..], f, g, h);
    }
  }

  /**
    The first element of `s` sits at some position `j` of a permutation `t`, and the rest of `s` is
    a permutation of `t` without that position.
   */
  lemma PickOut<T>(s: seq<T>, t: seq<T>) returns (j: nat)
    requires s != []
    requires multiset(s) == multiset(t)
    ensures j < |t| && t[j] == s[0]
    ensures t == t[..j] + [s[0]] + t[j + 1..]
    ensures multiset(s[1..]) == multiset(t[..j] + t[j + 1..])
  {
    var x := s[0];
    assert x in multiset(t);
    j :| 0 <= j < |t| && t[j] == x;
    assert t == t[..j] + [x] + t[j + 1..];
    assert s == [x] + s[1..];
    assert multiset(t) == multiset(t[..j]) + multiset{x} + multiset(t[j + 1..]);
    assert multiset(s) == multiset{x} + multiset(s[1..]);
    assert multiset(t[..j] + t[j + 1..]) == multiset(t[..j]) + multiset(t[j + 1..]);
    forall o
      ensures multiset(s[1..])[o] == multiset(t[..j] + t[j + 1..])[o]
    {
      assert multiset(s)[o] == multiset(t)[o];
    }
  }

  /**
    `i` is the first position of `s` whose element fails `ok`: where a loop or comprehension over `s`
    that raises on a failing element stops.
   */
  predicate FirstFailing<T>(s: seq<T>, ok: T -> bool, i: int) {
    0 <= i < |s| && !ok(s[i]) && forall j :: 0 <= j < i ==> ok(s[j])
  }

  /** When the head passes, the first failure of the tail is the first failure of the whole, one further on. */
  lemma FirstFailingShift<T>(s: seq<T>, ok: T -> bool)
    requires s != [] && ok(s[0])
    ensures forall i :: FirstFailing(s[1..], ok, i) ==> FirstFailing(s, ok, i + 1) && s[i + 1] == s[1..][i]
  {
    forall i | FirstFailing(s[1..], ok, i)
      ensures FirstFailing(s, ok, i + 1)
    {
      forall j | 0 <= j < i + 1
        ensures ok(s[j])
      {
        if j > 0 {
          assert s[j] == s[1..][j - 1];
        }
      }
    }
  }

  /** There is at most one first failure, so a contract naming the first failing element names one element. */
  lemma FirstFailingUnique<T>(s: seq<T>, ok: T -> bool, i: int, j: int)
    requires FirstFailing(s, ok, i) && FirstFailing(s, ok, j)
    ensures i == j
  {
  }
}
