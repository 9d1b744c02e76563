/** Index permutations, the descending-key order the output collection is
    sorted into, and reordering a sequence by such a permutation. */
module Ordering {

  predicate Distinct<T(==)>(s: seq<T>) {
    forall i, j :: 0 <= i < j < |s| ==> s[i] != s[j]
  }

  /** `order` lists every index below `n` exactly once. */
  predicate IsPermutation(order: seq<nat>, n: nat) {
    && |order| == n
    && (forall i :: 0 <= i < n ==> order[i] < n)
    && Distinct(order)
    && (forall k: nat :: k < n ==> k in order)
  }

  predicate Descending(order: seq<nat>, keys: seq<real>)
    requires forall i :: 0 <= i < |order| ==> order[i] < |keys|
  {
    forall i, j :: 0 <= i < j < |order| ==> keys[order[i]] >= keys[order[j]]
  }

  /** What `sort(PtGreater)` promises about the index list it returns:
      position `iP` of the sorted collection holds the record that was at
      `order[iP]`, and keys do not increase. Ties may go either way. */
  predicate IsSortOrder(order: seq<nat>, keys: seq<real>) {
    IsPermutation(order, |keys|) && Descending(order, keys)
  }

  /** Inserts index `x` into a descending index list, after every index
      whose key is not smaller. */
  function Insert(x: nat, s: seq<nat>, keys: seq<real>): (r: seq<nat>)
    requires x < |keys|
    requires forall i :: 0 <= i < |s| ==> s[i] < |keys|
    ensures |r| == |s| + 1
    ensures forall y :: y in r <==> y == x || y in s
    ensures forall i :: 0 <= i < |r| ==> r[i] < |keys|
  {
    if |s| == 0 then [x]
    else if keys[x] > keys[s[0]] then [x] + s
    else
      assert forall y :: y in s <==> y == s[0] || y in s[1..] by {
        assert s == [s[0]] + s[1..];
      }
      [s[0]] + Insert(x, s[1..], keys)
  }

  /** Inserting into a descending list keeps it descending. */
  lemma {:induction false} InsertDescending(x: nat, s: seq<nat>, keys: seq<real>)
    requires x < |keys|
    requires forall i :: 0 <= i < |s| ==> s[i] < |keys|
    requires Descending(s, keys)
    ensures Descending(Insert(x, s, keys), keys)
  {
    if |s| > 0 && keys[x] <= keys[s[0]] {
      var tail := s[1..];
      assert Descending(tail, keys) by {
        forall i, j | 0 <= i < j < |tail| ensures keys[tail[i]] >= keys[tail[j]] {
          assert tail[i] == s[i + 1] && tail[j] == s[j + 1];
        }
      }
      InsertDescending(x, tail, keys);
      var rest := Insert(x, tail, keys);
      forall j | 0 <= j < |rest| ensures keys[s[0]] >= keys[rest[j]] {
        if rest[j] != x {
          assert rest[j] in tail;
          var k :| 0 <= k < |tail| && tail[k] == rest[j];
          assert tail[k] == s[k + 1];
        }
      }
    }
  }

  /** Inserting a new index into a list without repeats keeps it without repeats. */
  lemma {:induction false} InsertDistinct(x: nat, s: seq<nat>, keys: seq<real>)
    requires x < |keys|
    requires forall i :: 0 <= i < |s| ==> s[i] < |keys|
    requires Distinct(s) && x !in s
    ensures Distinct(Insert(x, s, keys))
  {
    if |s| > 0 && keys[x] <= keys[s[0]] {
      var tail := s[1..];
      assert Distinct(tail) by {
        forall i, j | 0 <= i < j < |tail| ensures tail[i] != tail[j] {
          assert tail[i] == s[i + 1] && tail[j] == s[j + 1];
        }
      }
      assert x !in tail;
      InsertDistinct(x, tail, keys);
      assert s[0] !in tail;
    }
  }

  /** Insertion sort of the indices below `m`. */
  function SortPrefix(keys: seq<real>, m: nat): (r: seq<nat>)
    requires m <= |keys|
    ensures |r| == m
    ensures forall k: nat :: k in r <==> k < m
    ensures forall i :: 0 <= i < |r| ==> r[i] < |keys|
    ensures Distinct(r)
    ensures Descending(r, keys)
  {
    if m == 0 then []
    else
      var prev := SortPrefix(keys, m - 1);
      InsertDescending(m - 1, prev, keys);
      InsertDistinct(m - 1, prev, keys);
      Insert(m - 1, prev, keys)
  }
  /** A concrete sort of the indices by descending key. */
  function SortByKey(keys: seq<real>): (order: seq<nat>)
    ensures IsSortOrder(order, keys)
  {
    var r := SortPrefix(keys, |keys|);
    assert forall i :: 0 <= i < |r| ==> r[i] in r;
    r
  }

  /** The collection after the sort: position `iP` holds `items[order[iP]]`. */
  function Reorder<T>(items: seq<T>, order: seq<nat>): (r: seq<T>)
    requires forall i :: 0 <= i < |order| ==> order[i] < |items|
    ensures |r| == |order|
    ensures forall i :: 0 <= i < |order| ==> r[i] == items[order[i]]
  {
    seq(|order|, i requires 0 <= i < |order| => items[order[i]])
  }

  /** Removing the position that holds the largest index of a permutation
      leaves a permutation of the smaller indices. */
  lemma RemoveLargest(order: seq<nat>, n: nat, j: nat)
    requires IsPermutation(order, n + 1)
    requires j < |order| && order[j] == n
    ensures IsPermutation(order[..j] + order[j + 1..], n)
  {
    var rest := order[..j] + order[j + 1..];
    assert forall i :: 0 <= i < |rest| ==> rest[i] == (if i < j then order[i] else order[i + 1]);
    forall i | 0 <= i < |rest| ensures rest[i] < n {
      var p := if i < j then i else i + 1;
      assert rest[i] == order[p] && p != j;
    }
    forall a, b | 0 <= a < b < |rest| ensures rest[a] != rest[b] {
      var pa := if a < j then a else a + 1;
      var pb := if b < j then b else b + 1;
      assert pa < pb && rest[a] == order[pa] && rest[b] == order[pb];
    }
    forall k: nat | k < n ensures k in rest {
      assert k in order;
      var p :| 0 <= p < |order| && order[p] == k;
      assert p != j;
      if p < j {
        assert rest[p] == k;
      } else {
        assert rest[p - 1] == k;
      }
    }
  }

  /** Reordering the full collection by `order` is reordering the collection
      without its last item by `order` minus that item's position, with the
      last item spliced back in at that position. */
  lemma ReorderSplice<T>(items: seq<T>, order: seq<nat>, j: nat)
    requires |items| > 0
    requires forall i :: 0 <= i < |order| ==> order[i] < |items|
    requires j < |order| && order[j] == |items| - 1
    requires forall i :: 0 <= i < |order| && i != j ==> order[i] < |items| - 1
    ensures Reorder(items, order) ==
      var r' := Reorder(items[..|items| - 1], order[..j] + order[j + 1..]);
      r'[..j] + [items[|items| - 1]] + r'[j..]
  {
  }

  lemma SpliceMultiset<T>(r: seq<T>, r': seq<T>, x: T, j: nat)
    requires j <= |r'| && r == r'[..j] + [x] + r'[j..]
    ensures multiset(r) == multiset(r') + multiset{x}
  {
    assert r' == r'[..j] + r'[j..];
  }

  /** The position of the largest index of a permutation; every other
      position holds a smaller index. */
  lemma LargestPosition(order: seq<nat>, n: nat) returns (j: nat)
    requires IsPermutation(order, n + 1)
    ensures j < |order| && order[j] == n
    ensures forall i :: 0 <= i < |order| && i != j ==> order[i] < n
    ensures IsPermutation(order[..j] + order[j + 1..], n)
  {
    assert n in order;
    j :| 0 <= j < |order| && order[j] == n;
    RemoveLargest(order, n, j);
    forall i | 0 <= i < |order| && i != j ensures order[i] < n {
      assert order[i] != order[j];
    }
  }

  /** The inductive step of `ReorderIsPermutation`: if reordering the
      collection without its last item keeps its contents, so does
      reordering the whole collection. */
  lemma SpliceStep<T>(items: seq<T>, order: seq<nat>, j: nat)
    requires |items| > 0
    requires forall i :: 0 <= i < |order| ==> order[i] < |items|
    requires j < |order| && order[j] == |items| - 1
    requires forall i :: 0 <= i < |order| && i != j ==> order[i] < |items| - 1
    requires multiset(Reorder(items[..|items| - 1], order[..j] + order[j + 1..])) == multiset(items[..|items| - 1])
    ensures multiset(Reorder(items, order)) == multiset(items)
  {
    var last := |items| - 1;
    var front := items[..last];
    var r' := Reorder(front, order[..j] + order[j + 1..]);
    ReorderSplice(items, order, j);
    SpliceMultiset(Reorder(items, order), r', items[last], j);
    SpliceMultiset(items, front, items[last], last);
  }

  /** Reordering by a permutation keeps the collection's contents: the
      sorted collection is a rearrangement of the unsorted one. */
  lemma {:induction false} ReorderIsPermutation<T>(items: seq<T>, order: seq<nat>)
    requires IsPermutation(order, |items|)
    ensures multiset(Reorder(items, order)) == multiset(items)
    decreases |items|
  {
    if |items| == 0 {
      assert Reorder(items, order) == [];
    } else {
      var last := |items| - 1;
      var j := LargestPosition(order, last);
      ReorderIsPermutation(items[..last], order[..j] + order[j + 1..]);
      SpliceStep(items, order, j);
    }
  }
}
