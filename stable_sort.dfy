// Array.prototype.sort with a comparator `(a, b) => key(a) - key(b)`: since
// ES2019 the sort is stable, so its result is determined — it is the stable
// insertion sort below. Every sort in the app is this one with some key.
module StableSort {

  predicate SortedBy<T>(s: seq<T>, key: T -> real)
  {
    forall i, j :: 0 <= i < j < |s| ==> key(s[i]) <= key(s[j])
  }

  /** The elements of s whose key is v, in their order in s. */
  function WithKey<T>(s: seq<T>, key: T -> real, v: real): (r: seq<T>)
    ensures |r| <= |s|
    ensures forall i :: 0 <= i < |r| ==> key(r[i]) == v
  {
    if s == [] then []
    else (if key(s[0]) == v then [s[0]] else []) + WithKey(s[1..], key, v)
  }

  function Insert<T>(x: T, s: seq<T>, key: T -> real): seq<T>
    decreases |s|
  {
    if s == [] then [x]
    else if key(x) <= key(s[0]) then [x] + s
    else [s[0]] + Insert(x, s[1..], key)
  }

  function Sort<T>(s: seq<T>, key: T -> real): seq<T>
    decreases |s|
  {
    if s == [] then [] else Insert(s[0], Sort(s[1..], key), key)
  }

  // ---------------------------------------------------------------- Insert

  lemma {:induction false} InsertPermutes<T>(x: T, s: seq<T>, key: T -> real)
    ensures multiset(Insert(x, s, key)) == multiset([x]) + multiset(s)
    decreases |s|
  {
    if s != [] && key(x) > key(s[0]) {
      InsertPermutes(x, s[1..], key);
      assert s == [s[0]] + s[1..];
    }
  }

  lemma {:induction false} InsertSorted<T>(x: T, s: seq<T>, key: T -> real)
    requires SortedBy(s, key)
    ensures SortedBy(Insert(x, s, key), key)
    decreases |s|
  {
    if s != [] && key(x) > key(s[0]) {
      InsertSorted(x, s[1..], key);
      InsertPermutes(x, s[1..], key);
      var r := Insert(x, s[1..], key);
      forall i | 0 <= i < |r| ensures key(s[0]) <= key(r[i]) {
        assert r[i] in multiset(r);
        assert r[i] == x || r[i] in multiset(s[1..]);
        if r[i] != x {
          var k :| 0 <= k < |s[1..]| && s[1..][k] == r[i];
          assert s[k + 1] == r[i];
        }
      }
    }
  }

  lemma {:induction false} InsertKeeps<T>(x: T, s: seq<T>, key: T -> real, v: real)
    requires SortedBy(s, key)
    ensures WithKey(Insert(x, s, key), key, v)
         == (if key(x) == v then [x] else []) + WithKey(s, key, v)
    decreases |s|
  {
    if s == [] {
    } else if key(x) <= key(s[0]) {
      assert ([x] + s)[1..] == s;
    } else {
      InsertKeeps(x, s[1..], key, v);
      var r := [s[0]] + Insert(x, s[1..], key);
      assert r[1..] == Insert(x, s[1..], key);
      if key(x) == v {
        assert key(s[0]) != v;
        assert WithKey(s, key, v) == WithKey(s[1..], key, v);
      }
    }
  }

  // ---------------------------------------------------------------- Sort

  /** The sort permutes its input. */
  lemma {:induction false} SortPermutes<T>(s: seq<T>, key: T -> real)
    ensures multiset(Sort(s, key)) == multiset(s)
    ensures |Sort(s, key)| == |s|
    decreases |s|
  {
    if s != [] {
      SortPermutes(s[1..], key);
      InsertPermutes(s[0], Sort(s[1..], key), key);
      assert s == [s[0]] + s[1..];
    }
  }

  /** The sort orders its input by key. */
  lemma {:induction false} SortSorted<T>(s: seq<T>, key: T -> real)
    ensures SortedBy(Sort(s, key), key)
    decreases |s|
  {
    if s != [] {
      SortSorted(s[1..], key);
      InsertSorted(s[0], Sort(s[1..], key), key);
    }
  }

  /** The sort is stable: elements with equal keys keep their order. */
  lemma {:induction false} SortStable<T>(s: seq<T>, key: T -> real, v: real)
    ensures WithKey(Sort(s, key), key, v) == WithKey(s, key, v)
    decreases |s|
  {
    if s != [] {
      SortStable(s[1..], key, v);
      SortSorted(s[1..], key);
      InsertKeeps(s[0], Sort(s[1..], key), key, v);
    }
  }

  // ---------------------------------------------------------------- two keys

  lemma {:induction false} WithKeyAll<T>(s: seq<T>, key: T -> real, v: real)
    requires forall i :: 0 <= i < |s| ==> key(s[i]) == v
    ensures WithKey(s, key, v) == s
    decreases |s|
  {
    if s != [] {
      WithKeyAll(s[1..], key, v);
    }
  }

  lemma {:induction false} WithKeyNone<T>(s: seq<T>, key: T -> real, v: real)
    requires forall i :: 0 <= i < |s| ==> key(s[i]) != v
    ensures WithKey(s, key, v) == []
    decreases |s|
  {
    if s != [] {
      WithKeyNone(s[1..], key, v);
    }
  }

  lemma {:induction false} SortedTwoKeys<T>(r: seq<T>, key: T -> real, a: real, b: real)
    requires a < b && SortedBy(r, key)
    requires forall i :: 0 <= i < |r| ==> key(r[i]) == a || key(r[i]) == b
    ensures r == WithKey(r, key, a) + WithKey(r, key, b)
    decreases |r|
  {
    if r != [] {
      if key(r[0]) == a {
        SortedTwoKeys(r[1..], key, a, b);
        assert r == [r[0]] + r[1..];
      } else {
        WithKeyNone(r, key, a);
        WithKeyAll(r, key, b);
      }
    }
  }

  /** When every key is a or b (a < b), the sort puts the a's first and the
      b's after, each group in its original order. */
  lemma TwoKeySort<T>(s: seq<T>, key: T -> real, a: real, b: real)
    requires a < b
    requires forall i :: 0 <= i < |s| ==> key(s[i]) == a || key(s[i]) == b
    ensures Sort(s, key) == WithKey(s, key, a) + WithKey(s, key, b)
  {
    var r := Sort(s, key);
    SortPermutes(s, key);
    SortSorted(s, key);
    forall i | 0 <= i < |r| ensures key(r[i]) == a || key(r[i]) == b {
      assert r[i] in multiset(s);
    }
    SortedTwoKeys(r, key, a, b);
    SortStable(s, key, a);
    SortStable(s, key, b);
  }
}
