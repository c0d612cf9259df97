/** Generic sequence helpers shared by several pages: the model of `Array.prototype.filter`. */
module Seqs {

  /** `s.filter(f)`: the elements of `s` that satisfy `f`, in their original order. */
  function Filter<T>(s: seq<T>, f: T -> bool): (r: seq<T>)
    ensures |r| <= |s|
    ensures forall i :: 0 <= i < |r| ==> r[i] in s && f(r[i])
    ensures forall i :: 0 <= i < |s| && f(s[i]) ==> s[i] in r
  {
    if s == [] then [] else (if f(s[0]) then [s[0]] else []) + Filter(s[1..], f)
  }

  /** Filtering commutes with concatenation: the kept elements keep their relative order. */
  lemma {:induction false} FilterConcat<T>(a: seq<T>, b: seq<T>, f: T -> bool)
    ensures Filter(a + b, f) == Filter(a, f) + Filter(b, f)
  {
    if a == [] {
      assert a + b == b;
    } else {
      assert (a + b)[1..] == a[1..] + b;
      FilterConcat(a[1..], b, f);
    }
  }

  /** When every element passes, the filter returns the whole sequence unchanged. */
  lemma {:induction false} FilterKeepsAll<T>(s: seq<T>, f: T -> bool)
    requires forall i :: 0 <= i < |s| ==> f(s[i])
    ensures Filter(s, f) == s
  {
    if s != [] {
      FilterKeepsAll(s[1..], f);
    }
  }

  /** When no element passes, the filter returns the empty sequence. */
  lemma {:induction false} FilterDropsAll<T>(s: seq<T>, f: T -> bool)
    requires forall i :: 0 <= i < |s| ==> !f(s[i])
    ensures Filter(s, f) == []
  {
    if s != [] {
      FilterDropsAll(s[1..], f);
    }
  }

  /** Filtering twice with the same predicate is the same as filtering once. */
  lemma {:induction false} FilterIdempotent<T>(s: seq<T>, f: T -> bool)
    ensures Filter(Filter(s, f), f) == Filter(s, f)
  {
    var r := Filter(s, f);
    forall i | 0 <= i < |r| ensures f(r[i]) {
      assert r[i] in r;
    }
    FilterKeepsAll(r, f);
  }

  /** Filtering keeps the order of the elements: a key that strictly increases along `s` increases along the result. */
  lemma {:induction false} FilterKeepsIncreasing<T>(s: seq<T>, f: T -> bool, key: T -> int)
    requires forall i, j :: 0 <= i < j < |s| ==> key(s[i]) < key(s[j])
    ensures forall i, j :: 0 <= i < j < |Filter(s, f)| ==> key(Filter(s, f)[i]) < key(Filter(s, f)[j])
  {
    if s != [] {
      FilterKeepsIncreasing(s[1..], f, key);
      var rest := Filter(s[1..], f);
      forall x | x in rest ensures key(s[0]) < key(x) {
        var k :| 0 <= k < |rest| && rest[k] == x;
        var m :| 0 <= m < |s[1..]| && s[1..][m] == x;
        assert s[m + 1] == x;
      }
      if f(s[0]) {
        ConsIncreasing(s[0], rest, key);
        assert Filter(s, f) == [s[0]] + rest;
      } else {
        assert Filter(s, f) == rest;
      }
    }
  }

  /** Putting an element below every element of an increasing sequence in front keeps it increasing. */
  lemma ConsIncreasing<T>(x: T, rest: seq<T>, key: T -> int)
    requires forall i, j :: 0 <= i < j < |rest| ==> key(rest[i]) < key(rest[j])
    requires forall y :: y in rest ==> key(x) < key(y)
    ensures forall i, j :: 0 <= i < j < |[x] + rest| ==> key(([x] + rest)[i]) < key(([x] + rest)[j])
  {
    var r := [x] + rest;
    forall i, j | 0 <= i < j < |r| ensures key(r[i]) < key(r[j]) {
      assert r[j] == rest[j - 1];
      if i > 0 {
        assert r[i] == rest[i - 1];
      } else {
        assert rest[j - 1] in rest;
      }
    }
  }

  /** Two predicates that agree on every element select the same elements. */
  lemma {:induction false} FilterAgree<T>(s: seq<T>, f: T -> bool, g: T -> bool)
    requires forall i :: 0 <= i < |s| ==> f(s[i]) == g(s[i])
    ensures Filter(s, f) == Filter(s, g)
  {
    if s != [] {
      FilterAgree(s[1..], f, g);
    }
  }
}
