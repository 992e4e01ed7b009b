/** Stable sorting of a list by a key, as `Array.prototype.sort` does it with a key comparison. */
module Sorting {

  function Insert<T>(x: T, s: seq<T>, key: T -> real): (r: seq<T>)
    ensures |r| == |s| + 1
  {
    if s == [] || key(x) <= key(s[0]) then [x] + s else [s[0]] + Insert(x, s[1..], key)
  }

  function SortBy<T>(s: seq<T>, key: T -> real): (r: seq<T>)
    ensures |r| == |s|
  {
    if s == [] then [] else Insert(s[0], SortBy(s[1..], key), key)
  }

  ghost predicate SortedBy<T(!new)>(s: seq<T>, key: T -> real) {
    forall i, j :: 0 <= i < j < |s| ==> key(s[i]) <= key(s[j])
  }

  lemma {:induction false} InsertElements<T(!new)>(x: T, s: seq<T>, key: T -> real)
    ensures multiset(Insert(x, s, key)) == multiset(s) + multiset{x}
  {
    if s != [] && key(x) > key(s[0]) {
      InsertElements(x, s[1..], key);
      assert s == [s[0]] + s[1..];
    }
  }

  lemma {:induction false} InsertSorted<T(!new)>(x: T, s: seq<T>, key: T -> real)
    requires SortedBy(s, key)
    ensures SortedBy(Insert(x, s, key), key)
  {
    if s != [] && key(x) > key(s[0]) {
      var rest := Insert(x, s[1..], key);
      InsertSorted(x, s[1..], key);
      InsertElements(x, s[1..], key);
      forall i | 0 <= i < |rest| ensures key(s[0]) <= key(rest[i]) {
        assert rest[i] in multiset(rest);
        assert rest[i] == x || rest[i] in s[1..];
      }
    }
  }

  /** Sorting orders the elements and neither loses nor adds one. */
  lemma {:induction false} SortIsSortedPermutation<T(!new)>(s: seq<T>, key: T -> real)
    ensures SortedBy(SortBy(s, key), key) && multiset(SortBy(s, key)) == multiset(s)
  {
    if s != [] {
      SortIsSortedPermutation(s[1..], key);
      InsertSorted(s[0], SortBy(s[1..], key), key);
      InsertElements(s[0], SortBy(s[1..], key), key);
      assert s == [s[0]] + s[1..];
    }
  }

  /** No two different elements share a key. */
  ghost predicate Injective<T(!new)>(s: seq<T>, key: T -> real) {
    forall x, y :: x in s && y in s && key(x) == key(y) ==> x == y
  }

  lemma SameTails<T>(a: seq<T>, b: seq<T>)
    requires a != [] && b != [] && a[0] == b[0] && multiset(a) == multiset(b)
    ensures multiset(a[1..]) == multiset(b[1..])
  {
    assert a == [a[0]] + a[1..] && b == [b[0]] + b[1..];
    assert multiset(a[1..]) == multiset(a) - multiset{a[0]};
  }

  lemma SameFromTails<T>(a: seq<T>, b: seq<T>)
    requires a != [] && b != [] && a[0] == b[0] && a[1..] == b[1..]
    ensures a == b
  {
  }

  lemma EmptyMultiset<T>(b: seq<T>)
    requires multiset(b) == multiset{}
    ensures b == []
  {
    assert |multiset(b)| == 0;
  }

  lemma TailIsSortedToo<T(!new)>(s: seq<T>, key: T -> real)
    requires s != [] && SortedBy(s, key)
    ensures SortedBy(s[1..], key) && (Injective(s, key) ==> Injective(s[1..], key))
  {
  }

  lemma SameMultisetSameHead<T(!new)>(a: seq<T>, b: seq<T>, key: T -> real)
    requires SortedBy(a, key) && SortedBy(b, key) && multiset(a) == multiset(b) && Injective(a, key) && a != []
    ensures b != [] && a[0] == b[0]
  {
    assert a[0] in multiset(b);
    assert b[0] in multiset(a);
  }

  /** When keys tell elements apart, there is only one sorted arrangement. */
  lemma {:induction false} SortedIsUnique<T(!new)>(a: seq<T>, b: seq<T>, key: T -> real)
    requires SortedBy(a, key) && SortedBy(b, key) && multiset(a) == multiset(b) && Injective(a, key)
    ensures a == b
  {
    if a == [] {
      EmptyMultiset(b);
    } else {
      SameMultisetSameHead(a, b, key);
      SameTails(a, b);
      TailIsSortedToo(a, key);
      TailIsSortedToo(b, key);
      SortedIsUnique(a[1..], b[1..], key);
      SameFromTails(a, b);
    }
  }
}
