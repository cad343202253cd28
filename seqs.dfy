/** Generic list operations that the stores and pages use the way the source
    uses `Array.prototype.filter`, `find` and `slice`. */
module Seqs {
  import opened Types

  /** `s.filter(p)`: the elements that satisfy `p`, in their original order. */
  function Filter<T>(s: seq<T>, p: T -> bool): (r: seq<T>)
    ensures |r| <= |s|
    ensures forall i :: 0 <= i < |r| ==> r[i] in s && p(r[i])
    ensures forall i :: 0 <= i < |s| && p(s[i]) ==> s[i] in r
  {
    if s == [] then [] else (if p(s[0]) then [s[0]] else []) + Filter(s[1..], p)
  }

  /** Filtering distributes over concatenation: what comes first in the input
      comes first in the output, so a filter keeps the relative order. */
  lemma {:induction false} FilterConcat<T>(a: seq<T>, b: seq<T>, p: T -> bool)
    ensures Filter(a + b, p) == Filter(a, p) + Filter(b, p)
  {
    if a == [] {
      assert a + b == b;
    } else {
      assert (a + b)[1..] == a[1..] + b;
      FilterConcat(a[1..], b, p);
    }
  }

  /** A filter every element passes keeps the whole list. */
  lemma {:induction false} FilterAll<T>(s: seq<T>, p: T -> bool)
    requires forall i :: 0 <= i < |s| ==> p(s[i])
    ensures Filter(s, p) == s
  {
    if s != [] {
      FilterAll(s[1..], p);
      assert s == [s[0]] + s[1..];
    }
  }

  /** A filter no element passes keeps nothing. */
  lemma {:induction false} FilterNone<T>(s: seq<T>, p: T -> bool)
    requires forall i :: 0 <= i < |s| ==> !p(s[i])
    ensures Filter(s, p) == []
  {
    if s != [] {
      FilterNone(s[1..], p);
    }
  }

  /** When every element of `a` passes `p` and fails `q` and every element of
      `b` the other way round, the two filters split `a + b` back into `a`
      and `b`. */
  lemma FilterSplit<T>(a: seq<T>, b: seq<T>, p: T -> bool, q: T -> bool)
    requires forall i :: 0 <= i < |a| ==> p(a[i]) && !q(a[i])
    requires forall i :: 0 <= i < |b| ==> q(b[i]) && !p(b[i])
    ensures Filter(a + b, p) == a
    ensures Filter(a + b, q) == b
  {
    FilterConcat(a, b, p);
    FilterAll(a, p);
    FilterNone(b, p);
    FilterConcat(a, b, q);
    FilterNone(a, q);
    FilterAll(b, q);
  }

  /** Two complementary filters split a list: every element lands in exactly
      one of them, so together they hold the input's elements and count. */
  lemma {:induction false} FilterPartition<T>(s: seq<T>, p: T -> bool, q: T -> bool)
    requires forall x :: q(x) <==> !p(x)
    ensures multiset(Filter(s, p)) + multiset(Filter(s, q)) == multiset(s)
    ensures |Filter(s, p)| + |Filter(s, q)| == |s|
  {
    if s != [] {
      FilterPartition(s[1..], p, q);
      assert s == [s[0]] + s[1..];
    }
  }

  /** `a` is `b` with some elements left out, the rest in their order. */
  predicate IsSubsequence<T(==)>(a: seq<T>, b: seq<T>) {
    if a == [] then true
    else if b == [] then false
    else if a[0] == b[0] then IsSubsequence(a[1..], b[1..])
    else IsSubsequence(a, b[1..])
  }

  /** A filter keeps the surviving elements in their original order. */
  lemma {:induction false} FilterIsSubsequence<T>(s: seq<T>, p: T -> bool)
    ensures IsSubsequence(Filter(s, p), s)
  {
    if s != [] {
      FilterIsSubsequence(s[1..], p);
      var r := Filter(s[1..], p);
      if p(s[0]) {
        assert Filter(s, p) == [s[0]] + r;
        assert (Filter(s, p))[1..] == r;
      } else {
        assert Filter(s, p) == r;
        SubsequenceOfTail(r, s);
      }
    }
  }

  lemma {:induction false} SubsequenceOfTail<T>(a: seq<T>, b: seq<T>)
    requires b != [] && IsSubsequence(a, b[1..])
    ensures IsSubsequence(a, b)
  {
    if a != [] && a[0] == b[0] {
      assert b[1..] != [];
      if a[0] == b[1..][0] {
        SubsequenceOfTail(a[1..], b[1..]);
      } else {
        SubsequenceDropHead(a, b[1..]);
      }
    }
  }

  lemma {:induction false} SubsequenceDropHead<T>(a: seq<T>, b: seq<T>)
    requires a != [] && IsSubsequence(a, b)
    ensures IsSubsequence(a[1..], b)
  {
    if b != [] {
      if a[0] == b[0] {
        SubsequenceOfTail(a[1..], b);
      } else {
        SubsequenceDropHead(a, b[1..]);
        SubsequenceOfTail(a[1..], b);
      }
    }
  }

  /** The condition that both `p` and `q` hold. */
  function Both<T>(p: T -> bool, q: T -> bool): T -> bool {
    x => p(x) && q(x)
  }

  /** Two filters in a row are one filter by both conditions. */
  lemma {:induction false} FilterFilter<T>(s: seq<T>, p: T -> bool, q: T -> bool)
    ensures Filter(Filter(s, p), q) == Filter(s, Both(p, q))
  {
    if s != [] {
      FilterFilter(s[1..], p, q);
      var pq := Both(p, q);
      assert pq(s[0]) == (p(s[0]) && q(s[0]));
      assert Filter(s, pq) == (if pq(s[0]) then [s[0]] else []) + Filter(s[1..], pq);
      var fp := Filter(s, p);
      if p(s[0]) {
        assert fp == [s[0]] + Filter(s[1..], p);
        assert fp[0] == s[0] && fp[1..] == Filter(s[1..], p);
        assert Filter(fp, q) == (if q(s[0]) then [s[0]] else []) + Filter(Filter(s[1..], p), q);
      } else {
        assert fp == Filter(s[1..], p);
      }
    }
  }

  /** `s.find(x => key(x) === k)`: the first element whose key is `k`. */
  function FindFirst<T, K(==)>(s: seq<T>, key: T -> K, k: K): (r: Option<T>)
    ensures r.None? <==> forall i :: 0 <= i < |s| ==> key(s[i]) != k
    ensures r.Some? ==> exists i :: 0 <= i < |s| && s[i] == r.value && key(s[i]) == k
                                    && forall j :: 0 <= j < i ==> key(s[j]) != k
  {
    if s == [] then None
    else if key(s[0]) == k then Some(s[0])
    else
      var r := FindFirst(s[1..], key, k);
      assert r.Some? ==> exists i :: 0 < i < |s| && s[i] == r.value && key(s[i]) == k
                                     && forall j :: 0 <= j < i ==> key(s[j]) != k by {
        if r.Some? {
          var i :| 0 <= i < |s[1..]| && s[1..][i] == r.value && key(s[1..][i]) == k
                   && forall j :: 0 <= j < i ==> key(s[1..][j]) != k;
          assert s[i + 1] == r.value;
          assert forall j :: 0 <= j < i + 1 ==> key(s[j]) != k by {
            forall j | 0 <= j < i + 1 ensures key(s[j]) != k {
              if j > 0 { assert s[j] == s[1..][j - 1]; }
            }
          }
        }
      }
      r
  }

  /** `s.filter(x => key(x) !== k)`: removes every element whose key is `k`. */
  function WithoutKey<T, K(==)>(s: seq<T>, key: T -> K, k: K): (r: seq<T>)
    ensures forall i :: 0 <= i < |r| ==> r[i] in s && key(r[i]) != k
    ensures forall i :: 0 <= i < |s| && key(s[i]) != k ==> s[i] in r
    ensures |r| <= |s|
  {
    if s == [] then []
    else (if key(s[0]) != k then [s[0]] else []) + WithoutKey(s[1..], key, k)
  }

  /** Removing a key keeps the survivors' relative order. */
  lemma {:induction false} WithoutKeyConcat<T, K>(a: seq<T>, b: seq<T>, key: T -> K, k: K)
    ensures WithoutKey(a + b, key, k) == WithoutKey(a, key, k) + WithoutKey(b, key, k)
  {
    if a == [] {
      assert a + b == b;
    } else {
      assert (a + b)[1..] == a[1..] + b;
      WithoutKeyConcat(a[1..], b, key, k);
    }
  }

  /** Removing a key that no element carries changes nothing. */
  lemma {:induction false} WithoutAbsentKey<T, K>(s: seq<T>, key: T -> K, k: K)
    requires forall i :: 0 <= i < |s| ==> key(s[i]) != k
    ensures WithoutKey(s, key, k) == s
  {
    if s != [] {
      WithoutAbsentKey(s[1..], key, k);
    }
  }

  /** Removing a key that no element passing `p` carries leaves the
      elements passing `p` exactly as they were. */
  lemma {:induction false} FilterWithoutKey<T, K>(s: seq<T>, key: T -> K, k: K, p: T -> bool)
    requires forall i :: 0 <= i < |s| && key(s[i]) == k ==> !p(s[i])
    ensures Filter(WithoutKey(s, key, k), p) == Filter(s, p)
  {
    if s != [] {
      FilterWithoutKey(s[1..], key, k, p);
      var head := if key(s[0]) != k then [s[0]] else [];
      assert WithoutKey(s, key, k) == head + WithoutKey(s[1..], key, k);
      FilterConcat(head, WithoutKey(s[1..], key, k), p);
      if key(s[0]) != k {
        assert Filter(head, p) == if p(s[0]) then [s[0]] else [] by {
          assert head[1..] == [];
        }
      }
    }
  }

  /** `s.map(x => key(x) === k ? merge(x, p) : x)`. */
  function UpdateWhere<T, P, K(==)>(s: seq<T>, key: T -> K, k: K, merge: (T, P) -> T, p: P): (r: seq<T>)
    ensures |r| == |s|
    ensures forall i :: 0 <= i < |s| ==> r[i] == if key(s[i]) == k then merge(s[i], p) else s[i]
  {
    seq(|s|, i requires 0 <= i < |s| => if key(s[i]) == k then merge(s[i], p) else s[i])
  }

  /** The end index `s.slice(0, end)` uses: a negative end counts from the back. */
  function SliceEnd(n: nat, end: int): (e: nat)
    ensures e <= n
    ensures end >= 0 ==> e == if end < n then end else n
    ensures end < 0 ==> e == if n + end > 0 then n + end else 0
  {
    if end >= 0 then (if end < n then end else n)
    else if n + end > 0 then n + end else 0
  }

  /** `s.slice(0, end)`. */
  function Take<T>(s: seq<T>, end: int): (r: seq<T>)
    ensures r == s[..SliceEnd(|s|, end)]
  {
    s[..SliceEnd(|s|, end)]
  }
}
