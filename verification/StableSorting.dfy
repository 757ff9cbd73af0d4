// The stable sort the memory code relies on, by a two-part key.
module StableSorting {
  datatype Key = Key(major: real, minor: int)

  predicate AtMost(a: Key, b: Key) {
    a.major < b.major || (a.major == b.major && a.minor <= b.minor)
  }

  function Insert<T>(x: T, s: seq<T>, key: T -> Key): seq<T> {
    if s == [] || AtMost(key(x), key(s[0])) then [x] + s
    else [s[0]] + Insert(x, s[1..], key)
  }

  function StableSort<T>(s: seq<T>, key: T -> Key): seq<T> {
    if s == [] then [] else Insert(s[0], StableSort(s[1..], key), key)
  }

  ghost predicate SortedBy<T>(s: seq<T>, key: T -> Key) {
    forall i, j :: 0 <= i <= j < |s| ==> AtMost(key(s[i]), key(s[j]))
  }

  lemma {:induction false} InsertSorted<T>(x: T, s: seq<T>, key: T -> Key)
    requires SortedBy(s, key)
    ensures SortedBy(Insert(x, s, key), key)
    ensures multiset(Insert(x, s, key)) == multiset(s) + multiset{x}
    ensures |Insert(x, s, key)| == |s| + 1
  {
    if s != [] {
      assert s == [s[0]] + s[1..];
      if !AtMost(key(x), key(s[0])) {
        InsertSorted(x, s[1..], key);
        var rest := Insert(x, s[1..], key);
        forall i | 0 <= i < |rest|
          ensures AtMost(key(s[0]), key(rest[i]))
        {
          assert rest[i] in multiset(s[1..]) + multiset{x};
          assert rest[i] == x || rest[i] in s[1..];
        }
      }
    }
  }

  lemma {:induction false} SortTheorem<T>(s: seq<T>, key: T -> Key)
    ensures SortedBy(StableSort(s, key), key)
    ensures multiset(StableSort(s, key)) == multiset(s)
    ensures |StableSort(s, key)| == |s|
  {
    if s != [] {
      SortTheorem(s[1..], key);
      InsertSorted(s[0], StableSort(s[1..], key), key);
      assert s == [s[0]] + s[1..];
    }
  }

  // A sorted sequence cut in two: nothing is lost, and nothing in the tail precedes anything in the head.
  lemma {:induction false} SortedSplit<T>(s: seq<T>, key: T -> Key, n: nat)
    requires n <= |s|
    ensures |StableSort(s, key)| == |s|
    ensures var head, tail := StableSort(s, key)[..n], StableSort(s, key)[n..];
      && multiset(s) == multiset(head) + multiset(tail)
      && SortedBy(head, key)
      && forall x, y :: x in head && y in tail ==> AtMost(key(x), key(y))
  {
    SortTheorem(s, key);
    var sorted := StableSort(s, key);
    assert sorted == sorted[..n] + sorted[n..];
    HeadFirst(sorted, key, n);
  }

  lemma {:induction false} HeadFirst<T>(sorted: seq<T>, key: T -> Key, n: nat)
    requires SortedBy(sorted, key) && n <= |sorted|
    ensures forall x, y :: x in sorted[..n] && y in sorted[n..] ==> AtMost(key(x), key(y))
  {
    forall x, y | x in sorted[..n] && y in sorted[n..]
      ensures AtMost(key(x), key(y))
    {
      var i :| 0 <= i < n && sorted[..n][i] == x;
      var j :| 0 <= j < |sorted| - n && sorted[n..][j] == y;
      assert AtMost(key(sorted[i]), key(sorted[n + j]));
    }
  }

  // The elements with one key, in their order.
  function Among<T>(s: seq<T>, key: T -> Key, k: Key): seq<T> {
    if s == [] then [] else (if key(s[0]) == k then [s[0]] else []) + Among(s[1..], key, k)
  }

  lemma {:induction false} InsertStable<T>(x: T, s: seq<T>, key: T -> Key, k: Key)
    ensures Among(Insert(x, s, key), key, k) == (if key(x) == k then [x] else []) + Among(s, key, k)
  {
    if s == [] || AtMost(key(x), key(s[0])) {
      assert ([x] + s)[1..] == s;
    } else {
      InsertStable(x, s[1..], key, k);
      var rest := Insert(x, s[1..], key);
      assert ([s[0]] + rest)[1..] == rest;
    }
  }

  lemma {:induction false} AmongConcat<T>(s: seq<T>, t: seq<T>, key: T -> Key, k: Key)
    ensures Among(s + t, key, k) == Among(s, key, k) + Among(t, key, k)
  {
    if s == [] {
      assert s + t == t;
    } else {
      assert (s + t)[1..] == s[1..] + t;
      AmongConcat(s[1..], t, key, k);
    }
  }

  // So do those in a head of the sorted sequence: they are the first ones of that key.
  lemma {:induction false} HeadStable<T>(s: seq<T>, key: T -> Key, k: Key, n: nat)
    requires n <= |StableSort(s, key)|
    ensures Among(StableSort(s, key)[..n], key, k) <= Among(s, key, k)
  {
    var sorted := StableSort(s, key);
    assert sorted == sorted[..n] + sorted[n..];
    AmongConcat(sorted[..n], sorted[n..], key, k);
    SortStable(s, key, k);
  }

  // Elements with equal keys keep their order.
  lemma {:induction false} SortStable<T>(s: seq<T>, key: T -> Key, k: Key)
    ensures Among(StableSort(s, key), key, k) == Among(s, key, k)
  {
    if s != [] {
      SortStable(s[1..], key, k);
      InsertStable(s[0], StableSort(s[1..], key), key, k);
    }
  }
}
