/** Python's `list.sort(key=..., reverse=True)`: a stable sort into
    non-increasing key order, where items with equal keys keep their order. */
module Ranking {

  /** Places x in front of the first item whose key is not above key(x);
      in a non-increasing list that is after every item with a larger key
      and before every item with an equal key. */
  function Insert<T>(x: T, s: seq<T>, key: T -> real): (r: seq<T>)
    ensures |r| == |s| + 1
    ensures multiset(r) == multiset(s) + multiset{x}
  {
    if s == [] || key(x) >= key(s[0]) then [x] + s
    else
      assert s == [s[0]] + s[1..];
      [s[0]] + Insert(x, s[1..], key)
  }

  /** Insertion sort from the back: the head of the input is inserted into the
      sorted tail, so it ends up in front of the tail's items with equal keys. */
  function SortDescending<T>(s: seq<T>, key: T -> real): (r: seq<T>)
    ensures |r| == |s|
    ensures multiset(r) == multiset(s)
  {
    if s == [] then []
    else
      assert s == [s[0]] + s[1..];
      Insert(s[0], SortDescending(s[1..], key), key)
  }

  ghost predicate NonIncreasing<T>(s: seq<T>, key: T -> real) {
    forall i, j :: 0 <= i < j < |s| ==> key(s[i]) >= key(s[j])
  }

  lemma {:induction false} InsertKeepsOrder<T>(x: T, s: seq<T>, key: T -> real)
    requires NonIncreasing(s, key)
    ensures NonIncreasing(Insert(x, s, key), key)
    decreases |s|
  {
    if s != [] && key(x) < key(s[0]) {
      InsertKeepsOrder(x, s[1..], key);
      var r := Insert(x, s, key);
      var t := Insert(x, s[1..], key);
      assert r == [s[0]] + t;
      assert multiset(t) == multiset(s[1..]) + multiset{x};
      forall j | 0 < j < |r| ensures key(r[0]) >= key(r[j]) {
        assert r[j] == t[j - 1];
        assert t[j - 1] in multiset(t);
        if t[j - 1] == x {
        } else {
          assert t[j - 1] in multiset(s[1..]);
          var m :| 0 <= m < |s[1..]| && s[1..][m] == t[j - 1];
          assert s[1..][m] == s[m + 1];
        }
      }
    }
  }

  /** The sorted list is in non-increasing key order. */
  lemma {:induction false} SortDescendingOrdered<T>(s: seq<T>, key: T -> real)
    ensures NonIncreasing(SortDescending(s, key), key)
  {
    if s != [] {
      SortDescendingOrdered(s[1..], key);
      InsertKeepsOrder(s[0], SortDescending(s[1..], key), key);
    }
  }

  /** The first index holding the largest key. */
  function FirstMaxIndex<T>(s: seq<T>, key: T -> real): (k: nat)
    requires s != []
    ensures k < |s|
    ensures forall j :: 0 <= j < |s| ==> key(s[j]) <= key(s[k])
    ensures forall j :: 0 <= j < k ==> key(s[j]) < key(s[k])
  {
    if |s| == 1 then 0
    else
      var k := FirstMaxIndex(s[1..], key);
      assert forall j :: 1 <= j < |s| ==> s[j] == s[1..][j - 1];
      if key(s[0]) >= key(s[k + 1]) then 0 else k + 1
  }

  /** After the stable sort, the front item is the first one of the input with
      the largest key: ties are won by the item seen first. */
  lemma {:induction false} SortDescendingHead<T>(s: seq<T>, key: T -> real)
    requires s != []
    ensures SortDescending(s, key)[0] == s[FirstMaxIndex(s, key)]
  {
    if |s| > 1 {
      var tail := SortDescending(s[1..], key);
      SortDescendingHead(s[1..], key);
      var k := FirstMaxIndex(s[1..], key);
      assert tail[0] == s[k + 1];
    }
  }
}
