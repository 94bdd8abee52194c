/** Listing a set and sorting a list, as loose as Go leaves them: the order of a map is any order,
    and equal keys may end up either way round. */
module Lists {
  import opened Core

  method ToList<T(==)>(s: set<T>) returns (l: seq<T>)
    ensures NoDup(l) && ToSet(l) == s
  {
    l := [];
    var rest := s;
    while rest != {}
      invariant NoDup(l) && ToSet(l) + rest == s && ToSet(l) !! rest
      decreases |rest|
    {
      var x :| x in rest;
      NoDupAppend(l, [x]);
      assert ToSet(l + [x]) == ToSet(l) + {x};
      l, rest := l + [x], rest - {x};
    }
  }

  predicate Descending<T>(l: seq<T>, key: T -> real) {
    forall i, j :: 0 <= i < j < |l| ==> key(l[i]) >= key(l[j])
  }

  function InsertBy<T>(x: T, l: seq<T>, key: T -> real): seq<T> {
    if l == [] || key(x) >= key(l[0]) then [x] + l else [l[0]] + InsertBy(x, l[1..], key)
  }

  function SortBy<T>(l: seq<T>, key: T -> real): seq<T> {
    if l == [] then [] else InsertBy(l[0], SortBy(l[1..], key), key)
  }

  lemma {:induction false} InsertByKeeps<T>(x: T, l: seq<T>, key: T -> real)
    ensures multiset(InsertBy(x, l, key)) == multiset(l) + multiset{x}
  {
    if l != [] && key(x) < key(l[0]) {
      InsertByKeeps(x, l[1..], key);
      assert l == [l[0]] + l[1..];
    }
  }

  lemma {:induction false} InsertByDescending<T>(x: T, l: seq<T>, key: T -> real)
    requires Descending(l, key)
    ensures Descending(InsertBy(x, l, key), key)
  {
    if l != [] && key(x) < key(l[0]) {
      var rest := InsertBy(x, l[1..], key);
      InsertByDescending(x, l[1..], key);
      InsertByKeeps(x, l[1..], key);
      forall k | 0 <= k < |rest| ensures key(l[0]) >= key(rest[k]) {
        assert rest[k] in multiset(rest);
        assert rest[k] == x || rest[k] in l[1..];
      }
    }
  }

  lemma {:induction false} SortBySorts<T>(l: seq<T>, key: T -> real)
    ensures multiset(SortBy(l, key)) == multiset(l)
    ensures Descending(SortBy(l, key), key)
  {
    if l != [] {
      SortBySorts(l[1..], key);
      InsertByKeeps(l[0], SortBy(l[1..], key), key);
      InsertByDescending(l[0], SortBy(l[1..], key), key);
      assert l == [l[0]] + l[1..];
    }
  }

  lemma SameMembers<T>(a: seq<T>, b: seq<T>)
    requires multiset(a) == multiset(b)
    ensures ToSet(a) == ToSet(b)
  {
    forall x ensures x in a <==> x in b {
      assert x in a <==> x in multiset(a);
      assert x in b <==> x in multiset(b);
    }
  }

  /** A list of the set's members, highest key first. */
  method SortedList<T(==)>(s: set<T>, key: T -> real) returns (l: seq<T>)
    ensures NoDup(l) && ToSet(l) == s && Descending(l, key)
  {
    var any := ToList(s);
    l := SortBy(any, key);
    SortBySorts(any, key);
    MultisetNoDup(any);
    MultisetNoDup(l);
    SameMembers(l, any);
  }
}
