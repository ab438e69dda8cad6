/** A stable sort by an integer key, as the in-place sorts of the workers are. */
module StableSort {
  /** In front of the first element whose key is not smaller. */
  function Insert<T>(x: T, xs: seq<T>, key: T -> int): seq<T> {
    if xs == [] || key(x) <= key(xs[0]) then [x] + xs
    else [xs[0]] + Insert(x, xs[1..], key)
  }

  function Sort<T>(xs: seq<T>, key: T -> int): seq<T> {
    if xs == [] then [] else Insert(xs[0], Sort(xs[1..], key), key)
  }

  ghost predicate Ascending<T>(xs: seq<T>, key: T -> int) {
    forall i, j :: 0 <= i < j < |xs| ==> key(xs[i]) <= key(xs[j])
  }

  /** The elements with one key, in their order. */
  function WithKey<T>(xs: seq<T>, key: T -> int, k: int): seq<T> {
    if xs == [] then [] else (if key(xs[0]) == k then [xs[0]] else []) + WithKey(xs[1..], key, k)
  }

  lemma {:induction false} InsertContents<T>(x: T, xs: seq<T>, key: T -> int)
    ensures multiset(Insert(x, xs, key)) == multiset(xs) + multiset{x}
  {
    if xs != [] {
      InsertContents(x, xs[1..], key);
      assert xs == [xs[0]] + xs[1..];
    }
  }

  lemma {:induction false} InsertAscending<T>(x: T, xs: seq<T>, key: T -> int)
    requires Ascending(xs, key)
    ensures Ascending(Insert(x, xs, key), key)
  {
    if xs != [] && key(x) > key(xs[0]) {
      var rest := Insert(x, xs[1..], key);
      InsertAscending(x, xs[1..], key);
      InsertContents(x, xs[1..], key);
      forall j | 0 <= j < |rest| ensures key(xs[0]) <= key(rest[j]) {
        assert rest[j] in multiset(rest);
        assert rest[j] == x || rest[j] in xs[1..];
      }
    }
  }

  lemma {:induction false} InsertStable<T>(x: T, xs: seq<T>, key: T -> int, k: int)
    ensures WithKey(Insert(x, xs, key), key, k) == (if key(x) == k then [x] else []) + WithKey(xs, key, k)
  {
    if xs != [] && key(x) > key(xs[0]) {
      InsertStable(x, xs[1..], key, k);
      assert ([xs[0]] + Insert(x, xs[1..], key))[1..] == Insert(x, xs[1..], key);
    } else {
      assert ([x] + xs)[1..] == xs;
    }
  }

  /** The sort is ascending, a permutation, and keeps the order of equal keys. */
  lemma {:induction false} SortIsStable<T>(xs: seq<T>, key: T -> int)
    ensures Ascending(Sort(xs, key), key)
    ensures multiset(Sort(xs, key)) == multiset(xs)
    ensures forall k :: WithKey(Sort(xs, key), key, k) == WithKey(xs, key, k)
  {
    if xs != [] {
      var rest := Sort(xs[1..], key);
      SortIsStable(xs[1..], key);
      InsertAscending(xs[0], rest, key);
      InsertContents(xs[0], rest, key);
      assert xs == [xs[0]] + xs[1..];
      forall k { InsertStable(xs[0], rest, key, k); }
    }
  }
}
