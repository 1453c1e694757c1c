/** Stable sorting by a key, and what a strictly ascending key sequence
    determines. */
module Orders {

  ghost predicate StrictOrder<K(!new)>(less: (K, K) -> bool) {
    && (forall a :: !less(a, a))
    && (forall a, b, c :: less(a, b) && less(b, c) ==> less(a, c))
    && (forall a, b :: a == b || less(a, b) || less(b, a))
  }

  ghost predicate AscendingBy<K>(keys: seq<K>, less: (K, K) -> bool) {
    forall i, j :: 0 <= i < j < |keys| ==> less(keys[i], keys[j])
  }

  function KeysBy<T, K>(items: seq<T>, key: T -> K): (keys: seq<K>)
    ensures |keys| == |items| && forall i :: 0 <= i < |items| ==> keys[i] == key(items[i])
  {
    seq(|items|, i requires 0 <= i < |items| => key(items[i]))
  }

  /** Placed behind everything that does not come after it. */
  function PlaceBy<T, K>(items: seq<T>, x: T, key: T -> K, less: (K, K) -> bool): seq<T> {
    if items == [] || less(key(x), key(items[0])) then [x] + items
    else [items[0]] + PlaceBy(items[1..], x, key, less)
  }

  /** sort.SliceStable. */
  function SortBy<T, K>(items: seq<T>, key: T -> K, less: (K, K) -> bool): seq<T> {
    if items == [] then [] else PlaceBy(SortBy(items[..|items| - 1], key, less), items[|items| - 1], key, less)
  }

  /** A key below all others goes in front. */
  lemma FrontKeys<T, K(!new)>(items: seq<T>, x: T, key: T -> K, less: (K, K) -> bool)
    requires AscendingBy(KeysBy(items, key), less)
    requires forall k :: k in KeysBy(items, key) ==> less(key(x), k)
    ensures AscendingBy(KeysBy([x] + items, key), less)
    ensures forall k :: k in KeysBy([x] + items, key) <==> k == key(x) || k in KeysBy(items, key)
  {
    var keys := KeysBy(items, key);
    assert KeysBy([x] + items, key) == [key(x)] + keys;
    forall j | 0 <= j < |keys| ensures less(key(x), keys[j]) {
      assert keys[j] in keys;
    }
  }

  /** What follows the first key is above it. */
  lemma AboveFirst<T, K(!new)>(items: seq<T>, key: T -> K, less: (K, K) -> bool)
    requires items != [] && AscendingBy(KeysBy(items, key), less)
    ensures AscendingBy(KeysBy(items[1..], key), less)
    ensures KeysBy(items, key) == [key(items[0])] + KeysBy(items[1..], key)
    ensures forall k :: k in KeysBy(items[1..], key) ==> less(key(items[0]), k)
  {
    var keys := KeysBy(items, key);
    assert keys == [key(items[0])] + KeysBy(items[1..], key);
    forall k | k in KeysBy(items[1..], key) ensures less(key(items[0]), k) {
      var i :| 0 <= i < |items| - 1 && KeysBy(items[1..], key)[i] == k;
      assert keys[i + 1] == k;
    }
    forall i, j | 0 <= i < j < |items| - 1 ensures less(KeysBy(items[1..], key)[i], KeysBy(items[1..], key)[j]) {
      assert less(keys[i + 1], keys[j + 1]);
    }
  }

  lemma {:induction false} PlaceKeys<T, K(!new)>(items: seq<T>, x: T, key: T -> K, less: (K, K) -> bool)
    requires StrictOrder(less) && AscendingBy(KeysBy(items, key), less)
    requires key(x) !in KeysBy(items, key)
    ensures AscendingBy(KeysBy(PlaceBy(items, x, key, less), key), less)
    ensures forall k :: k in KeysBy(PlaceBy(items, x, key, less), key) <==> k == key(x) || k in KeysBy(items, key)
    ensures forall y :: y in PlaceBy(items, x, key, less) <==> y == x || y in items
  {
    if items == [] {
      FrontKeys(items, x, key, less);
    } else {
      var rest := items[1..];
      assert items == [items[0]] + rest;
      AboveFirst(items, key, less);
      if less(key(x), key(items[0])) {
        assert forall k :: k in KeysBy(items, key) <==> k == key(items[0]) || k in KeysBy(rest, key);
        FrontKeys(items, x, key, less);
      } else {
        PlaceKeys(rest, x, key, less);
        assert KeysBy(items, key)[0] in KeysBy(items, key);
        FrontKeys(PlaceBy(rest, x, key, less), items[0], key, less);
      }
    }
  }

  lemma {:induction false} PlaceMembers<T, K>(items: seq<T>, x: T, key: T -> K, less: (K, K) -> bool)
    ensures forall y :: y in PlaceBy(items, x, key, less) <==> y == x || y in items
  {
    if items != [] && !less(key(x), key(items[0])) {
      PlaceMembers(items[1..], x, key, less);
      assert items == [items[0]] + items[1..];
    }
  }

  /** Sorting loses and invents nothing. */
  lemma {:induction false} SortMembers<T, K>(items: seq<T>, key: T -> K, less: (K, K) -> bool)
    ensures forall y :: y in SortBy(items, key, less) <==> y in items
  {
    if items != [] {
      var front, last := items[..|items| - 1], items[|items| - 1];
      SortMembers(front, key, less);
      PlaceMembers(SortBy(front, key, less), last, key, less);
      assert items == front + [last];
    }
  }

  ghost predicate DistinctBy<T, K>(items: seq<T>, key: T -> K) {
    forall i, j :: 0 <= i < j < |items| ==> key(items[i]) != key(items[j])
  }

  /** Sorting items of distinct keys gives those keys strictly ascending. */
  lemma {:induction false} SortKeys<T, K(!new)>(items: seq<T>, key: T -> K, less: (K, K) -> bool)
    requires StrictOrder(less) && DistinctBy(items, key)
    ensures AscendingBy(KeysBy(SortBy(items, key, less), key), less)
    ensures forall k :: k in KeysBy(SortBy(items, key, less), key) <==> k in KeysBy(items, key)
    ensures forall y :: y in SortBy(items, key, less) <==> y in items
  {
    if items != [] {
      var front, last := items[..|items| - 1], items[|items| - 1];
      SortKeys(front, key, less);
      assert KeysBy(items, key) == KeysBy(front, key) + [key(last)];
      assert items == front + [last];
      PlaceKeys(SortBy(front, key, less), last, key, less);
    }
  }

  lemma TailBy<K(!new)>(a: seq<K>, less: (K, K) -> bool)
    requires StrictOrder(less) && AscendingBy(a, less) && a != []
    ensures AscendingBy(a[1..], less)
    ensures forall x :: x in a[1..] <==> x in a && x != a[0]
    ensures forall x :: x in a ==> x == a[0] || less(a[0], x)
  {
    forall x ensures x in a[1..] <==> x in a && x != a[0] {
      if x in a && x != a[0] {
        var i :| 0 <= i < |a| && a[i] == x;
        assert a[1..][i - 1] == x;
      }
    }
  }

  /** A strictly ascending sequence is determined by what it contains. */
  lemma {:induction false} AscendingByUnique<K(!new)>(a: seq<K>, b: seq<K>, less: (K, K) -> bool)
    requires StrictOrder(less) && AscendingBy(a, less) && AscendingBy(b, less)
    requires forall x :: x in a <==> x in b
    ensures a == b
  {
    SomeKey(b);
    if a == [] {
    } else {
      assert a[0] in a;
      assert b != [];
      assert b[0] in b;
      TailBy(a, less);
      TailBy(b, less);
      assert a[0] == b[0];
      AscendingByUnique(a[1..], b[1..], less);
      assert a == [a[0]] + a[1..] && b == [b[0]] + b[1..];
    }
  }

  lemma SomeKey<K>(b: seq<K>)
    ensures b == [] || exists x :: x in b
  {
    if b != [] {
      assert b[0] in b;
    }
  }
}
