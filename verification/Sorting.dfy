/** Stable sorting by a key. */
module Sorting {
  predicate Ascending<T>(s: seq<T>, key: T -> real) {
    |s| < 2 || (key(s[|s| - 2]) <= key(s[|s| - 1]) && Ascending(s[..|s| - 1], key))
  }

  /** Behind everything that is not larger. */
  function Insert<T>(x: T, s: seq<T>, key: T -> real): (r: seq<T>)
    requires Ascending(s, key)
    ensures |r| == |s| + 1 && Ascending(r, key)
    ensures r[|s|] == if s == [] || key(s[|s| - 1]) <= key(x) then x else s[|s| - 1]
  {
    var n := |s| - 1;
    if s == [] || key(s[n]) <= key(x) then
      assert (s + [x])[..|s|] == s;
      s + [x]
    else
      var r := Insert(x, s[..n], key);
      assert (r + [s[n]])[..|r|] == r;
      r + [s[n]]
  }

  function Sort<T>(s: seq<T>, key: T -> real): (r: seq<T>)
    ensures |r| == |s| && Ascending(r, key)
  {
    if s == [] then [] else Insert(s[|s| - 1], Sort(s[..|s| - 1], key), key)
  }

  lemma {:induction false} AscendingAt<T>(s: seq<T>, key: T -> real, i: nat, j: nat)
    requires Ascending(s, key) && i <= j < |s|
    ensures key(s[i]) <= key(s[j])
  {
    var n := |s| - 1;
    if i < j {
      if j < n {
        AscendingAt(s[..n], key, i, j);
      } else {
        AscendingAt(s[..n], key, i, n - 1);
      }
    }
  }

  lemma FrontAndLast<T>(s: seq<T>)
    requires s != []
    ensures multiset(s) == multiset(s[..|s| - 1]) + multiset{s[|s| - 1]}
  {
    assert s == s[..|s| - 1] + [s[|s| - 1]];
  }

  lemma {:induction false} InsertAdds<T>(x: T, s: seq<T>, key: T -> real)
    requires Ascending(s, key)
    ensures multiset(Insert(x, s, key)) == multiset(s) + multiset{x}
  {
    var n := |s| - 1;
    if s != [] && key(s[n]) > key(x) {
      InsertAdds(x, s[..n], key);
      FrontAndLast(s);
    }
  }

  lemma {:induction false} SortPermutes<T>(s: seq<T>, key: T -> real)
    ensures multiset(Sort(s, key)) == multiset(s)
  {
    if s != [] {
      var front, last := s[..|s| - 1], s[|s| - 1];
      SortPermutes(front, key);
      InsertAdds(last, Sort(front, key), key);
      FrontAndLast(s);
    }
  }

  lemma InsertMembers<T>(x: T, s: seq<T>, key: T -> real, i: nat)
    requires Ascending(s, key) && i <= |s|
    ensures Insert(x, s, key)[i] == x || Insert(x, s, key)[i] in s
  {
    InsertAdds(x, s, key);
    var y := Insert(x, s, key)[i];
    assert y in multiset(Insert(x, s, key));
    assert y == x || y in multiset(s);
  }

  lemma SortMembers<T>(s: seq<T>, key: T -> real, x: T)
    ensures x in Sort(s, key) <==> x in s
  {
    SortPermutes(s, key);
    assert x in Sort(s, key) <==> x in multiset(Sort(s, key));
    assert x in s <==> x in multiset(s);
  }

  // ---------------------------------------------------------------------------
  // Stability
  // ---------------------------------------------------------------------------

  function OfKey<T>(s: seq<T>, key: T -> real, k: real): seq<T> {
    if s == [] then []
    else
      var n := |s| - 1;
      OfKey(s[..n], key, k) + if key(s[n]) == k then [s[n]] else []
  }

  lemma {:induction false} InsertKeepsOrder<T>(x: T, s: seq<T>, key: T -> real, k: real)
    requires Ascending(s, key)
    ensures OfKey(Insert(x, s, key), key, k) == OfKey(s, key, k) + if key(x) == k then [x] else []
  {
    var n := |s| - 1;
    if s == [] || key(s[n]) <= key(x) {
      assert Insert(x, s, key)[..|s|] == s;
    } else {
      InsertKeepsOrder(x, s[..n], key, k);
      assert Insert(x, s, key)[..|s|] == Insert(x, s[..n], key);
    }
  }

  /** Elements of one key keep their order. */
  lemma {:induction false} SortIsStable<T>(s: seq<T>, key: T -> real, k: real)
    ensures OfKey(Sort(s, key), key, k) == OfKey(s, key, k)
  {
    if s != [] {
      var n := |s| - 1;
      SortIsStable(s[..n], key, k);
      InsertKeepsOrder(s[n], Sort(s[..n], key), key, k);
    }
  }

  // ---------------------------------------------------------------------------
  // Distinct keys
  // ---------------------------------------------------------------------------

  ghost predicate StrictlyAscending<T(!new)>(s: seq<T>, key: T -> real) {
    forall i, j :: 0 <= i < j < |s| ==> key(s[i]) < key(s[j])
  }

  lemma {:induction false} InsertStrict<T(!new)>(x: T, s: seq<T>, key: T -> real)
    requires Ascending(s, key) && StrictlyAscending(s, key) && forall i :: 0 <= i < |s| ==> key(s[i]) != key(x)
    ensures StrictlyAscending(Insert(x, s, key), key)
  {
    var n := |s| - 1;
    if s != [] && key(s[n]) > key(x) {
      InsertStrict(x, s[..n], key);
      forall i: nat | i < |s| ensures key(Insert(x, s[..n], key)[i]) < key(s[n]) {
        InsertMembers(x, s[..n], key, i);
      }
    }
  }

  /** With distinct keys the order is strict. */
  lemma {:induction false} SortStrict<T(!new)>(s: seq<T>, key: T -> real)
    requires forall i, j :: 0 <= i < j < |s| ==> key(s[i]) != key(s[j])
    ensures StrictlyAscending(Sort(s, key), key)
  {
    if s != [] {
      var n := |s| - 1;
      SortStrict(s[..n], key);
      var r := Sort(s[..n], key);
      forall i | 0 <= i < |r| ensures key(r[i]) != key(s[n]) {
        SortMembers(s[..n], key, r[i]);
        assert r[i] in s[..n];
      }
      InsertStrict(s[n], r, key);
    }
  }
}
