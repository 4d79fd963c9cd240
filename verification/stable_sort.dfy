/** A stable sort by an integer key, largest key first, as JavaScript's
    `Array.prototype.sort` does with a comparator `(a, b) => key(b) - key(a)`
    (the language requires that sort to be stable). */
module StableSort {

  predicate Descending<T>(s: seq<T>, key: T -> int) {
    forall i, j :: 0 <= i < j < |s| ==> key(s[i]) >= key(s[j])
  }

  predicate Ascending<T>(s: seq<T>, key: T -> int) {
    forall i, j :: 0 <= i < j < |s| ==> key(s[i]) <= key(s[j])
  }

  /** Puts `x` before the first element whose key is not larger, so it goes
      ahead of the elements that share its key. */
  function Insert<T>(x: T, s: seq<T>, key: T -> int): (r: seq<T>)
    ensures multiset(r) == multiset(s) + multiset{x}
    ensures |r| == |s| + 1
    ensures r[0] == x || (s != [] && r[0] == s[0])
  {
    if s == [] || key(x) >= key(s[0]) then [x] + s
    else
      assert s == [s[0]] + s[1..];
      [s[0]] + Insert(x, s[1..], key)
  }

  /** Inserting into a list ordered largest key first keeps it ordered. */
  lemma {:induction false} InsertKeepsDescending<T>(x: T, s: seq<T>, key: T -> int)
    requires Descending(s, key)
    ensures Descending(Insert(x, s, key), key)
  {
    var r := Insert(x, s, key);
    if s == [] || key(x) >= key(s[0]) {
      forall i, j | 0 <= i < j < |r|
        ensures key(r[i]) >= key(r[j])
      {
        assert r[j] == s[j - 1];
        if i > 0 {
          assert r[i] == s[i - 1];
        }
      }
    } else {
      var t := Insert(x, s[1..], key);
      InsertKeepsDescending(x, s[1..], key);
      assert r == [s[0]] + t;
      forall i, j | 0 <= i < j < |r|
        ensures key(r[i]) >= key(r[j])
      {
        var y := t[j - 1];
        if i == 0 {
          assert y in multiset(t);
          if y != x {
            assert y in multiset(s[1..]);
            var k :| 0 <= k < |s[1..]| && s[1..][k] == y;
            assert s[k + 1] == y;
          }
        } else {
          assert r[i] == t[i - 1];
        }
      }
    }
  }

  /** Insertion sort, from the back of the list to the front. */
  function Sort<T>(s: seq<T>, key: T -> int): (r: seq<T>)
    ensures multiset(r) == multiset(s)
    ensures |r| == |s|
    ensures Descending(r, key)
  {
    if s == [] then []
    else
      assert s == [s[0]] + s[1..];
      InsertKeepsDescending(s[0], Sort(s[1..], key), key);
      Insert(s[0], Sort(s[1..], key), key)
  }

  /** The elements of `s` whose key is `k`, in their order in `s`. */
  function WithKey<T>(s: seq<T>, key: T -> int, k: int): seq<T> {
    if s == [] then []
    else (if key(s[0]) == k then [s[0]] else []) + WithKey(s[1..], key, k)
  }

  lemma {:induction false} InsertWithKey<T>(x: T, s: seq<T>, key: T -> int, k: int)
    ensures WithKey(Insert(x, s, key), key, k) == (if key(x) == k then [x] else []) + WithKey(s, key, k)
  {
    if s == [] || key(x) >= key(s[0]) {
      assert ([x] + s)[1..] == s;
    } else {
      var r := Insert(x, s, key);
      assert r[1..] == Insert(x, s[1..], key);
      InsertWithKey(x, s[1..], key, k);
    }
  }

  /** Stability: the elements sharing a key keep their input order. */
  lemma {:induction false} SortIsStable<T>(s: seq<T>, key: T -> int, k: int)
    ensures WithKey(Sort(s, key), key, k) == WithKey(s, key, k)
  {
    if s != [] {
      SortIsStable(s[1..], key, k);
      InsertWithKey(s[0], Sort(s[1..], key), key, k);
    }
  }

  /** A list already in order is left as it is. */
  lemma {:induction false} SortKeepsSorted<T>(s: seq<T>, key: T -> int)
    requires Descending(s, key)
    ensures Sort(s, key) == s
  {
    if s != [] {
      SortKeepsSorted(s[1..], key);
      assert [s[0]] + s[1..] == s;
    }
  }

  /** Sorting twice gives what sorting once gave. */
  lemma SortIdempotent<T>(s: seq<T>, key: T -> int)
    ensures Sort(Sort(s, key), key) == Sort(s, key)
  {
    SortKeepsSorted(Sort(s, key), key);
  }

  lemma SortCons<T>(x: T, s: seq<T>, key: T -> int)
    ensures Sort([x] + s, key) == Insert(x, Sort(s, key), key)
  {
    assert ([x] + s)[1..] == s;
  }

  lemma InsertBehind<T>(x: T, y: T, s: seq<T>, key: T -> int)
    requires key(x) < key(y)
    ensures Insert(x, [y] + s, key) == [y] + Insert(x, s, key)
  {
    assert ([y] + s)[1..] == s;
  }

  lemma InsertAhead<T>(x: T, s: seq<T>, key: T -> int)
    requires s == [] || key(x) >= key(s[0])
    ensures Insert(x, s, key) == [x] + s
  {
  }

  lemma SortTwo<T>(b: T, c: T, key: T -> int)
    requires key(b) < key(c)
    ensures Sort([b, c], key) == [c, b]
  {
    var empty: seq<T> := [];
    calc {
      Sort([b, c], key);
    == { SortCons(b, [c], key); assert [b] + [c] == [b, c]; }
      Insert(b, Sort([c], key), key);
    == { SortCons(c, empty, key); assert [c] + empty == [c]; }
      Insert(b, Insert(c, empty, key), key);
    == { InsertAhead(c, empty, key); assert [c] + empty == [c]; }
      Insert(b, [c], key);
    == { InsertBehind(b, c, empty, key); assert [c] + empty == [c]; }
      [c] + Insert(b, empty, key);
    == { InsertAhead(b, empty, key); }
      [c, b];
    }
  }

  lemma InsertSecond<T>(a: T, b: T, c: T, key: T -> int)
    requires key(b) <= key(a) < key(c)
    ensures Insert(a, [c, b], key) == [c, a, b]
  {
    assert [c, b] == [c] + [b];
    InsertBehind(a, c, [b], key);
    InsertAhead(a, [b], key);
    assert [c] + ([a] + [b]) == [c, a, b];
  }

  /** Three elements with distinct keys come out largest key first. */
  lemma SortThree<T>(a: T, b: T, c: T, key: T -> int)
    requires key(b) < key(a) < key(c)
    ensures Sort([a, b, c], key) == [c, a, b]
  {
    SortCons(a, [b, c], key);
    assert [a] + [b, c] == [a, b, c];
    SortTwo(b, c, key);
    InsertSecond(a, b, c, key);
  }
}
