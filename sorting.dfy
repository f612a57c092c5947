/**
 * Python's stable `list.sort`, modelled as insertion sort on sequences under
 * an ordering relation `le` (`le(x, y)`: x may stay before y). Lemmas show the
 * result is ordered, a permutation of the input, and stable: items the order
 * cannot tell apart keep their original relative order. `SortDescending` is
 * the instance for `sort(key=..., reverse=True)` on a real-valued key.
 */
module Sorting {
  predicate Ordered<T>(s: seq<T>, le: (T, T) -> bool) {
    forall i, j :: 0 <= i < j < |s| ==> le(s[i], s[j])
  }

  ghost predicate Total<T(!new)>(le: (T, T) -> bool) {
    forall x, y :: le(x, y) || le(y, x)
  }

  ghost predicate Transitive<T(!new)>(le: (T, T) -> bool) {
    forall x, y, z :: le(x, y) && le(y, z) ==> le(x, z)
  }

  /** The items of `s` that the order ranks together with `k`, in their order in `s`. */
  function Ties<T>(s: seq<T>, le: (T, T) -> bool, k: T): seq<T>
    decreases |s|
  {
    if s == [] then []
    else (if le(s[0], k) && le(k, s[0]) then [s[0]] else []) + Ties(s[1..], le, k)
  }

  /** Inserts `x` before the first item it may precede. */
  function Insert<T>(x: T, s: seq<T>, le: (T, T) -> bool): seq<T>
    decreases |s|
  {
    if s == [] || le(x, s[0]) then [x] + s
    else [s[0]] + Insert(x, s[1..], le)
  }

  function SortBy<T>(s: seq<T>, le: (T, T) -> bool): seq<T>
    decreases |s|
  {
    if s == [] then [] else Insert(s[0], SortBy(s[1..], le), le)
  }

  lemma {:induction false} InsertPermutation<T>(x: T, s: seq<T>, le: (T, T) -> bool)
    ensures multiset(Insert(x, s, le)) == multiset([x] + s)
    decreases |s|
  {
    if s != [] && !le(x, s[0]) {
      InsertPermutation(x, s[1..], le);
      assert [x] + s == [x] + [s[0]] + s[1..];
      assert s == [s[0]] + s[1..];
    }
  }

  lemma {:induction false} InsertMembers<T>(x: T, s: seq<T>, le: (T, T) -> bool)
    ensures |Insert(x, s, le)| == |s| + 1
    ensures forall y :: y in Insert(x, s, le) ==> y == x || y in s
    decreases |s|
  {
    if s != [] && !le(x, s[0]) {
      InsertMembers(x, s[1..], le);
      forall y | y in Insert(x, s, le) ensures y == x || y in s {
        if y != s[0] {
          assert y in Insert(x, s[1..], le);
        }
      }
    }
  }

  lemma {:induction false} InsertOrdered<T(!new)>(x: T, s: seq<T>, le: (T, T) -> bool)
    requires Total(le) && Transitive(le) && Ordered(s, le)
    ensures Ordered(Insert(x, s, le), le)
    decreases |s|
  {
    if s != [] && !le(x, s[0]) {
      var rest := Insert(x, s[1..], le);
      InsertOrdered(x, s[1..], le);
      InsertMembers(x, s[1..], le);
      var r := [s[0]] + rest;
      forall i, j | 0 <= i < j < |r| ensures le(r[i], r[j]) {
        if i == 0 {
          assert r[j] in rest;
          if r[j] != x {
            var m :| 0 <= m < |s[1..]| && s[1..][m] == r[j];
            assert s[m + 1] == r[j];
          }
        } else {
          assert r[i] == rest[i - 1] && r[j] == rest[j - 1];
        }
      }
    } else if s != [] {
      var r := [x] + s;
      forall i, j | 0 <= i < j < |r| ensures le(r[i], r[j]) {
        if i == 0 {
          assert r[j] == s[j - 1];
          if j > 1 {
            assert le(s[0], s[j - 1]);
          }
        } else {
          assert r[i] == s[i - 1] && r[j] == s[j - 1];
        }
      }
    }
  }

  lemma {:induction false} InsertStable<T(!new)>(x: T, s: seq<T>, le: (T, T) -> bool, k: T)
    requires Transitive(le)
    ensures Ties(Insert(x, s, le), le, k) == Ties([x] + s, le, k)
    decreases |s|
  {
    if s != [] && !le(x, s[0]) {
      InsertStable(x, s[1..], le, k);
      var r := Insert(x, s, le);
      assert r[0] == s[0] && r[1..] == Insert(x, s[1..], le);
      var xs := [x] + s;
      assert xs[1..] == s && ([x] + s[1..])[1..] == s[1..];
    }
  }

  /** The result of the sort is ordered. */
  lemma {:induction false} SortIsOrdered<T(!new)>(s: seq<T>, le: (T, T) -> bool)
    requires Total(le) && Transitive(le)
    ensures Ordered(SortBy(s, le), le)
    decreases |s|
  {
    if s != [] {
      SortIsOrdered(s[1..], le);
      InsertOrdered(s[0], SortBy(s[1..], le), le);
    }
  }

  /** The result of the sort holds exactly the items of the input. */
  lemma {:induction false} SortIsPermutation<T>(s: seq<T>, le: (T, T) -> bool)
    ensures multiset(SortBy(s, le)) == multiset(s)
    decreases |s|
  {
    if s != [] {
      SortIsPermutation(s[1..], le);
      InsertPermutation(s[0], SortBy(s[1..], le), le);
      assert s == [s[0]] + s[1..];
    }
  }

  /** Items the order ranks together appear in the result in their input order. */
  lemma {:induction false} SortIsStable<T(!new)>(s: seq<T>, le: (T, T) -> bool, k: T)
    requires Transitive(le)
    ensures Ties(SortBy(s, le), le, k) == Ties(s, le, k)
    decreases |s|
  {
    if s != [] {
      var t := SortBy(s[1..], le);
      SortIsStable(s[1..], le, k);
      InsertStable(s[0], t, le, k);
      assert ([s[0]] + t)[1..] == t;
    }
  }

  /** "Not smaller" on a real-valued key: the order of `reverse=True`. */
  function AtLeast<T>(key: T -> real): (T, T) -> bool {
    (x: T, y: T) => key(x) >= key(y)
  }

  function SortDescending<T>(s: seq<T>, key: T -> real): seq<T> {
    SortBy(s, AtLeast(key))
  }

  lemma AtLeastIsPreorder<T(!new)>(key: T -> real)
    ensures Total(AtLeast(key)) && Transitive(AtLeast(key))
  {
  }

  /**
   * The descending sort: highest key first, the same items as the input, and
   * items with equal keys in their input order.
   */
  lemma SortDescendingMeaning<T(!new)>(s: seq<T>, key: T -> real)
    ensures forall i, j :: 0 <= i < j < |SortDescending(s, key)| ==>
              key(SortDescending(s, key)[i]) >= key(SortDescending(s, key)[j])
    ensures multiset(SortDescending(s, key)) == multiset(s)
    ensures forall k :: Ties(SortDescending(s, key), AtLeast(key), k) == Ties(s, AtLeast(key), k)
  {
    AtLeastIsPreorder(key);
    SortIsOrdered(s, AtLeast(key));
    SortIsPermutation(s, AtLeast(key));
    forall k ensures Ties(SortDescending(s, key), AtLeast(key), k) == Ties(s, AtLeast(key), k) {
      SortIsStable(s, AtLeast(key), k);
    }
  }
}
