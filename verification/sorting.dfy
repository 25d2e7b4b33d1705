/**
 * A stable insertion sort by a real-valued key. It stands in for the
 * library sorts of the source (numpy's argsort, pandas' sort_values,
 * Python's list.sort): every property the model states about a sorted
 * result holds for any ordering those sorts may choose among equal keys.
 */
module Sorting {
  predicate SortedBy<T>(s: seq<T>, key: T -> real) {
    forall i, j :: 0 <= i < j < |s| ==> key(s[i]) <= key(s[j])
  }

  predicate Distinct<T(==)>(s: seq<T>) {
    forall i, j :: 0 <= i < j < |s| ==> s[i] != s[j]
  }

  /** Inserts `x` after every element whose key is not greater than its own. */
  function Insert<T>(x: T, s: seq<T>, key: T -> real): seq<T> {
    if s == [] then [x]
    else if key(x) < key(s[0]) then [x] + s
    else [s[0]] + Insert(x, s[1..], key)
  }

  lemma {:induction false} InsertProps<T>(x: T, s: seq<T>, key: T -> real)
    requires SortedBy(s, key)
    ensures SortedBy(Insert(x, s, key), key)
    ensures |Insert(x, s, key)| == |s| + 1
    ensures multiset(Insert(x, s, key)) == multiset(s) + multiset{x}
  {
    InsertCount(x, s, key);
    InsertSorted(x, s, key);
  }

  lemma {:induction false} InsertCount<T>(x: T, s: seq<T>, key: T -> real)
    ensures |Insert(x, s, key)| == |s| + 1
    ensures multiset(Insert(x, s, key)) == multiset(s) + multiset{x}
  {
    if s != [] && key(x) >= key(s[0]) {
      InsertCount(x, s[1..], key);
      assert s == [s[0]] + s[1..];
    }
  }

  lemma SortedHead<T>(s: seq<T>, key: T -> real)
    requires SortedBy(s, key) && s != []
    ensures forall y :: y in s ==> key(s[0]) <= key(y)
  {
    forall y | y in s ensures key(s[0]) <= key(y) {
      var k :| 0 <= k < |s| && s[k] == y;
    }
  }

  lemma SortedCons<T>(a: T, r: seq<T>, key: T -> real)
    requires SortedBy(r, key)
    requires forall y :: y in r ==> key(a) <= key(y)
    ensures SortedBy([a] + r, key)
  {
    var c := [a] + r;
    forall i, j | 0 <= i < j < |c| ensures key(c[i]) <= key(c[j]) {
      assert c[j] == r[j - 1];
      if i > 0 {
        assert c[i] == r[i - 1];
      }
    }
  }

  lemma {:induction false} InsertSorted<T>(x: T, s: seq<T>, key: T -> real)
    requires SortedBy(s, key)
    ensures SortedBy(Insert(x, s, key), key)
  {
    if s == [] {
    } else if key(x) < key(s[0]) {
      SortedHead(s, key);
      SortedCons(x, s, key);
    } else {
      var rest := Insert(x, s[1..], key);
      InsertSorted(x, s[1..], key);
      InsertCount(x, s[1..], key);
      SortedHead(s, key);
      forall y | y in rest ensures key(s[0]) <= key(y) {
        assert y in multiset(rest);
        if y != x {
          assert y in multiset(s[1..]);
          assert y in s;
        }
      }
      SortedCons(s[0], rest, key);
    }
  }

  /** The elements of `s` in non-decreasing key order; equal keys keep their input order. */
  function SortBy<T(==)>(s: seq<T>, key: T -> real): (r: seq<T>)
    ensures SortedBy(r, key)
    ensures |r| == |s|
    ensures multiset(r) == multiset(s)
  {
    if s == [] then []
    else
      var front := s[..|s| - 1];
      assert s == front + [s[|s| - 1]];
      InsertProps(s[|s| - 1], SortBy(front, key), key);
      Insert(s[|s| - 1], SortBy(front, key), key)
  }

  lemma {:induction false} InsertDistinct<T>(x: T, s: seq<T>, key: T -> real)
    requires SortedBy(s, key) && Distinct(s) && x !in s
    ensures Distinct(Insert(x, s, key))
  {
    if s != [] && key(x) >= key(s[0]) {
      InsertDistinct(x, s[1..], key);
      InsertProps(x, s[1..], key);
      var rest := Insert(x, s[1..], key);
      assert s[0] !in s[1..];
      assert s[0] !in multiset(rest);
    }
  }

  /** Sorting a sequence without repetitions gives a sequence without repetitions. */
  lemma {:induction false} SortByDistinct<T>(s: seq<T>, key: T -> real)
    requires Distinct(s)
    ensures Distinct(SortBy(s, key))
  {
    if s != [] {
      var front := s[..|s| - 1];
      SortByDistinct(front, key);
      var sf := SortBy(front, key);
      assert s[|s| - 1] !in front;
      assert s[|s| - 1] !in multiset(sf);
      InsertDistinct(s[|s| - 1], sf, key);
    }
  }

  /** The elements of a sorted result are exactly those of the input. */
  lemma SortByMembers<T>(s: seq<T>, key: T -> real, x: T)
    ensures x in SortBy(s, key) <==> x in s
  {
    var r := SortBy(s, key);
    assert x in r <==> x in multiset(r);
    assert x in s <==> x in multiset(s);
  }

  /** `[0, 1, ..., n-1]`. */
  function Range(n: nat): (r: seq<nat>)
    ensures |r| == n && forall i :: 0 <= i < n ==> r[i] == i
  {
    seq(n, i requires 0 <= i < n => i)
  }

  /** In a sequence without repeats, each element differs from every earlier one. */
  lemma DistinctBefore<T>(s: seq<T>, n: nat)
    requires Distinct(s) && n < |s|
    ensures forall i :: 0 <= i < n ==> s[..n][i] == s[i] && s[i] != s[n]
  {
  }

  lemma RangeDistinct(n: nat)
    ensures Distinct(Range(n))
  {
  }

  /** A sequence that lists each of 0..n-1 exactly once. */
  predicate IsPermutation(order: seq<nat>, n: nat) {
    && |order| == n && Distinct(order)
    && (forall j :: 0 <= j < n ==> order[j] < n)
    && (forall i: nat :: i < n ==> i in order)
  }

  /** Stable argsort: the indices of `a` ordered by ascending value. */
  function Argsort(a: seq<real>): (order: seq<nat>)
    ensures IsPermutation(order, |a|)
    ensures forall i, j :: 0 <= i < j < |a| ==> a[order[i]] <= a[order[j]]
  {
    var key := (i: nat) => if i < |a| then a[i] else 0.0;
    var order := SortBy<nat>(Range(|a|), key);
    RangeDistinct(|a|);
    SortByDistinct(Range(|a|), key);
    forall j | 0 <= j < |a| ensures order[j] < |a| {
      SortByMembers(Range(|a|), key, order[j]);
    }
    forall i: nat | i < |a| ensures i in order {
      SortByMembers(Range(|a|), key, i);
      assert Range(|a|)[i] == i;
    }
    assert forall i, j :: 0 <= i < j < |a| ==> key(order[i]) <= key(order[j]);
    order
  }


  lemma {:induction false} DistinctCountOne<T>(s: seq<T>, x: T)
    requires Distinct(s)
    ensures multiset(s)[x] <= 1
  {
    if s != [] {
      assert Distinct(s[1..]) by {
        forall a, b | 0 <= a < b < |s| - 1 ensures s[1..][a] != s[1..][b] {
          assert s[a + 1] != s[b + 1];
        }
      }
      DistinctCountOne(s[1..], x);
      assert s == [s[0]] + s[1..];
      if x == s[0] {
        assert x !in s[1..];
      }
    }
  }

  /** A reordering of a sequence without repetitions has none either. */
  lemma DistinctPermutation<T>(s: seq<T>, t: seq<T>)
    requires Distinct(s) && multiset(s) == multiset(t)
    ensures Distinct(t)
  {
    forall i, j | 0 <= i < j < |t| ensures t[i] != t[j] {
      if t[i] == t[j] {
        var x := t[i];
        assert t == t[..j] + [t[j]] + t[j + 1..];
        assert x in t[..j];
        assert multiset(t)[x] >= 2;
        DistinctCountOne(s, x);
        assert false;
      }
    }
  }

  /** A prefix of a sequence without repetitions has none either. */
  lemma DistinctPrefix<T>(s: seq<T>, n: nat)
    requires Distinct(s) && n <= |s|
    ensures Distinct(s[..n])
  {
    forall a, b | 0 <= a < b < n ensures s[..n][a] != s[..n][b] {
      assert s[a] != s[b];
    }
  }

  /** The head and tail of a non-empty sequence with more appended. */
  lemma AppendTail<T>(a: seq<T>, b: seq<T>)
    requires a != []
    ensures (a + b)[0] == a[0] && (a + b)[1..] == a[1..] + b
  {
  }

  lemma AppendAssoc<T>(x: seq<T>, y: seq<T>, z: seq<T>)
    ensures x + (y + z) == (x + y) + z
  {
  }

  /** The parts of a concatenation: the first part is its prefix and the second what follows. */
  lemma AppendParts<T>(a: seq<T>, b: seq<T>)
    ensures (a + b)[..|a|] == a && (a + b)[|a|..] == b
  {
  }

  /** Past its head, a sequence with an element in front is the sequence shifted by one. */
  lemma ConsAt<T>(x: T, s: seq<T>, k: nat)
    requires 1 <= k <= |s|
    ensures ([x] + s)[k] == s[k - 1]
  {
  }

  /** A prefix one longer is the prefix and the next element. */
  /** Overwriting the first element after a prefix extends the prefix by the new element. */
  lemma UpdateAtJoin<T>(a: seq<T>, b: seq<T>, x: T)
    requires b != []
    ensures (a + b)[|a| := x] == (a + [x]) + b[1..]
  {
  }

  lemma TakeSnoc<T>(s: seq<T>, j: nat)
    requires j < |s|
    ensures s[..j + 1] == s[..j] + [s[j]]
  {
  }

  /** A sequence without repetitions grown by a new element has none either. */
  lemma DistinctSnoc<T>(s: seq<T>, x: T)
    requires Distinct(s) && x !in s
    ensures Distinct(s + [x])
  {
    var t := s + [x];
    forall a, b | 0 <= a < b < |t| ensures t[a] != t[b] {
      if b == |s| {
        assert t[a] == s[a];
      } else {
        assert t[a] == s[a] && t[b] == s[b];
      }
    }
  }

  /** The elements of a sequence grown by one. */
  lemma ElementsSnoc<T>(s: seq<T>, x: T)
    ensures (set y | y in s + [x]) == (set y | y in s) + {x}
  {
  }

  /** A sequence without repetitions has as many distinct elements as positions. */
  lemma {:induction false} DistinctSetSize<T>(s: seq<T>)
    requires Distinct(s)
    ensures |(set x | x in s)| == |s|
  {
    if s != [] {
      var front := s[..|s| - 1];
      DistinctPrefix(s, |s| - 1);
      DistinctSetSize(front);
      var last := s[|s| - 1];
      assert s == front + [last];
      assert last !in front;
      assert (set x | x in s) == (set x | x in front) + {last};
    }
  }

  /** Python's `min(s, key=key)` as a position: the first element with the smallest key. */
  function FirstMin<T>(s: seq<T>, key: T -> real): (i: nat)
    requires s != []
    ensures i < |s|
    ensures forall j :: 0 <= j < |s| ==> key(s[i]) <= key(s[j])
    ensures forall j :: 0 <= j < i ==> key(s[j]) > key(s[i])
  {
    if |s| == 1 then 0
    else
      var j := 1 + FirstMin(s[1..], key);
      assert forall k :: 1 <= k < |s| ==> s[k] == s[1..][k - 1];
      if key(s[j]) < key(s[0]) then j else 0
  }
}
