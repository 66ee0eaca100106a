/** Orderings the document store applies to query results: `orderBy(f,
    'desc')` over an integer-valued field, and the client-side `reverse()`
    of such a result. */
module Sorting {

  ghost predicate NonIncreasing<T>(s: seq<T>, key: T -> int) {
    forall i, j :: 0 <= i < j < |s| ==> key(s[i]) >= key(s[j])
  }

  ghost predicate NonDecreasing<T>(s: seq<T>, key: T -> int) {
    forall i, j :: 0 <= i < j < |s| ==> key(s[i]) <= key(s[j])
  }

  ghost predicate StrictlyIncreasing<T>(s: seq<T>, key: T -> int) {
    forall i, j :: 0 <= i < j < |s| ==> key(s[i]) < key(s[j])
  }

  /** Places `x` before the first element whose key is not larger. */
  function InsertDesc<T>(x: T, s: seq<T>, key: T -> int): (r: seq<T>)
    ensures multiset(r) == multiset(s) + multiset{x}
    ensures |r| == |s| + 1
    ensures NonIncreasing(s, key) ==> NonIncreasing(r, key)
  {
    if s == [] then [x]
    else if key(x) >= key(s[0]) then [x] + s
    else
      var rest := InsertDesc(x, s[1..], key);
      assert s == [s[0]] + s[1..];
      assert NonIncreasing(s, key) ==> NonIncreasing([s[0]] + rest, key) by {
        if NonIncreasing(s, key) {
          HeadBoundsRest(s, key);
          ConsNonIncreasing(s[0], rest, key);
        }
      }
      [s[0]] + rest
  }

  /** In a non-increasing sequence the head's key bounds every other. */
  lemma HeadBoundsRest<T>(s: seq<T>, key: T -> int)
    requires s != [] && NonIncreasing(s, key)
    ensures forall y :: y in multiset(s[1..]) ==> key(s[0]) >= key(y)
  {
    forall y | y in multiset(s[1..]) ensures key(s[0]) >= key(y) {
      var k :| 0 <= k < |s[1..]| && s[1..][k] == y;
      assert s[k + 1] == y;
    }
  }

  /** A head whose key bounds a non-increasing tail keeps it so. */
  lemma ConsNonIncreasing<T>(h: T, rest: seq<T>, key: T -> int)
    requires NonIncreasing(rest, key)
    requires forall y :: y in multiset(rest) ==> key(h) >= key(y)
    ensures NonIncreasing([h] + rest, key)
  {
    var l := [h] + rest;
    forall i, j | 0 <= i < j < |l| ensures key(l[i]) >= key(l[j]) {
      if i == 0 {
        assert rest[j - 1] in multiset(rest);
      }
    }
  }

  /** Insertion sort into non-increasing key order. */
  function SortDesc<T>(s: seq<T>, key: T -> int): (r: seq<T>)
    ensures multiset(r) == multiset(s)
    ensures |r| == |s|
    ensures NonIncreasing(r, key)
  {
    if s == [] then []
    else
      assert s == [s[0]] + s[1..];
      InsertDesc(s[0], SortDesc(s[1..], key), key)
  }

  function Reverse<T>(s: seq<T>): (r: seq<T>)
    ensures |r| == |s|
    ensures forall i :: 0 <= i < |s| ==> r[i] == s[|s| - 1 - i]
  {
    if s == [] then [] else Reverse(s[1..]) + [s[0]]
  }

  lemma ReverseReversesOrder<T>(s: seq<T>, key: T -> int)
    requires NonIncreasing(s, key)
    ensures NonDecreasing(Reverse(s), key)
  {
  }

  lemma {:induction false} ReverseIsPermutation<T>(s: seq<T>)
    ensures multiset(Reverse(s)) == multiset(s)
  {
    if s != [] {
      ReverseIsPermutation(s[1..]);
      assert s == [s[0]] + s[1..];
    }
  }

  /** Inserting an element whose key is below every other key appends it. */
  lemma {:induction false} InsertBelowAll<T>(x: T, s: seq<T>, key: T -> int)
    requires forall i :: 0 <= i < |s| ==> key(s[i]) > key(x)
    ensures InsertDesc(x, s, key) == s + [x]
  {
    if s != [] {
      InsertBelowAll(x, s[1..], key);
      assert s == [s[0]] + s[1..];
    }
  }

  /** A sequence already in strictly increasing key order sorts into its
      own reverse: the descending order is unique there. */
  lemma {:induction false} SortDescOfIncreasing<T>(s: seq<T>, key: T -> int)
    requires StrictlyIncreasing(s, key)
    ensures SortDesc(s, key) == Reverse(s)
  {
    if s != [] {
      var tail := s[1..];
      TailIncreasing(s, key);
      SortDescOfIncreasing(tail, key);
      var rt := Reverse(tail);
      ReversedTailAboveHead(s, key);
      InsertBelowAll(s[0], rt, key);
      assert SortDesc(s, key) == InsertDesc(s[0], rt, key);
    }
  }

  lemma TailIncreasing<T>(s: seq<T>, key: T -> int)
    requires s != [] && StrictlyIncreasing(s, key)
    ensures StrictlyIncreasing(s[1..], key)
  {
    var tail := s[1..];
    forall i, j | 0 <= i < j < |tail| ensures key(tail[i]) < key(tail[j]) {
      assert tail[i] == s[i + 1] && tail[j] == s[j + 1];
    }
  }

  lemma ReversedTailAboveHead<T>(s: seq<T>, key: T -> int)
    requires s != [] && StrictlyIncreasing(s, key)
    ensures forall i :: 0 <= i < |Reverse(s[1..])| ==> key(Reverse(s[1..])[i]) > key(s[0])
  {
    var rt := Reverse(s[1..]);
    forall i | 0 <= i < |rt| ensures key(rt[i]) > key(s[0]) {
      assert rt[i] == s[|s| - 1 - i];
    }
  }

  ghost predicate Distinct<T>(s: seq<T>) {
    forall i, j :: 0 <= i < j < |s| ==> s[i] != s[j]
  }

  /** A reordering (such as `SortDesc`) of a list without repeats has no
      repeats. */
  lemma PermutationKeepsDistinct<T>(a: seq<T>, b: seq<T>)
    requires multiset(a) == multiset(b) && Distinct(b)
    ensures Distinct(a)
  {
    forall i, j | 0 <= i < j < |a| ensures a[i] != a[j] {
      if a[i] == a[j] {
        assert a == a[..i] + [a[i]] + a[i + 1..j] + [a[j]] + a[j + 1..];
        assert multiset(a)[a[i]] >= 2;
        DistinctCountsOnce(b, a[i]);
        assert false;
      }
    }
  }

  lemma {:induction false} DistinctCountsOnce<T>(s: seq<T>, x: T)
    requires Distinct(s)
    ensures multiset(s)[x] <= 1
    decreases |s|
  {
    if s != [] {
      var tail := s[1..];
      assert Distinct(tail) by {
        forall i, j | 0 <= i < j < |tail| ensures tail[i] != tail[j] {
          assert tail[i] == s[i + 1] && tail[j] == s[j + 1];
        }
      }
      DistinctCountsOnce(tail, x);
      assert s == [s[0]] + tail;
      if s[0] == x {
        assert x !in tail by {
          forall k | 0 <= k < |tail| ensures tail[k] != x {
            assert tail[k] == s[k + 1];
          }
        }
      }
    }
  }
}
