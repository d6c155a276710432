/** Sequence operations the system relies on: JavaScript's `filter` and `find`,
    lookups by id as `SELECT ... WHERE id = ?` does them, and the ordering of
    `ORDER BY ... DESC`. */
module Seqs {
  import opened Common

  /** `Array.prototype.filter`: the elements of `s` that satisfy `p`, in order. */
  function Filter<T(!new)>(s: seq<T>, p: T -> bool): (r: seq<T>)
    ensures |r| <= |s|
    ensures forall x :: x in r <==> x in s && p(x)
  {
    if s == [] then []
    else if p(s[0]) then [s[0]] + Filter(s[1..], p)
    else Filter(s[1..], p)
  }

  /** Filtering distributes over concatenation, so a filter keeps the original
      order of the elements it selects. */
  lemma {:induction false} FilterAppend<T(!new)>(a: seq<T>, b: seq<T>, p: T -> bool)
    ensures Filter(a + b, p) == Filter(a, p) + Filter(b, p)
  {
    if a == [] {
      assert a + b == b;
    } else {
      assert (a + b)[1..] == a[1..] + b;
      FilterAppend(a[1..], b, p);
    }
  }

  /** `s.filter(x => x.field === v)`: the elements whose `key` is `v`. */
  function FilterBy<T(!new)>(s: seq<T>, key: T -> string, v: string): (r: seq<T>)
    ensures |r| <= |s|
    ensures forall x :: x in r <==> x in s && key(x) == v
  {
    Filter(s, x => key(x) == v)
  }

  lemma FilterByCons<T(!new)>(s: seq<T>, key: T -> string, v: string)
    requires s != []
    ensures |FilterBy(s, key, v)| == (if key(s[0]) == v then 1 else 0) + |FilterBy(s[1..], key, v)|
  {
  }

  /** Replacing one element changes a count by what the old element and the
      new one each contributed. */
  lemma FilterByUpdate<T(!new)>(s: seq<T>, key: T -> string, v: string, i: int, x: T)
    requires 0 <= i < |s|
    ensures |FilterBy(s[i := x], key, v)|
            == |FilterBy(s, key, v)| - (if key(s[i]) == v then 1 else 0) + (if key(x) == v then 1 else 0)
  {
    var p := (y: T) => key(y) == v;
    assert s == s[..i] + [s[i]] + s[i + 1..];
    assert s[i := x] == s[..i] + [x] + s[i + 1..];
    FilterAppend(s[..i] + [s[i]], s[i + 1..], p);
    FilterAppend(s[..i], [s[i]], p);
    FilterAppend(s[..i] + [x], s[i + 1..], p);
    FilterAppend(s[..i], [x], p);
    assert [s[i]][1..] == [] && [x][1..] == [];
  }

  /** Counting the elements equal to three distinct values never counts an
      element twice, and counts every element exactly when each one's key is
      one of the three. */
  lemma {:induction false} PartitionCount<T(!new)>(s: seq<T>, key: T -> string, a: string, b: string, c: string)
    requires a != b && b != c && a != c
    ensures |FilterBy(s, key, a)| + |FilterBy(s, key, b)| + |FilterBy(s, key, c)| <= |s|
    ensures |FilterBy(s, key, a)| + |FilterBy(s, key, b)| + |FilterBy(s, key, c)| == |s|
            <==> forall x :: x in s ==> key(x) == a || key(x) == b || key(x) == c
  {
    if s != [] {
      FilterByCons(s, key, a);
      FilterByCons(s, key, b);
      FilterByCons(s, key, c);
      PartitionCount(s[1..], key, a, b, c);
      assert forall x :: x in s <==> x == s[0] || x in s[1..];
    }
  }

  /** Position `i` holds the first element of `s` whose `key` is `id`. */
  predicate IsFirstMatch<T>(s: seq<T>, key: T -> int, id: int, i: int) {
    0 <= i < |s| && key(s[i]) == id && forall j :: 0 <= j < i ==> key(s[j]) != id
  }

  /** No element of `s` has `id` as its `key`. */
  predicate NoMatch<T>(s: seq<T>, key: T -> int, id: int) {
    forall j :: 0 <= j < |s| ==> key(s[j]) != id
  }

  /** The position of the first element whose `key` is `id`. */
  function IndexBy<T>(s: seq<T>, key: T -> int, id: int): (r: Option<nat>)
    ensures r.None? <==> NoMatch(s, key, id)
    ensures r.Some? ==> IsFirstMatch(s, key, id, r.value)
  {
    if s == [] then None
    else if key(s[0]) == id then Some(0)
    else match IndexBy(s[1..], key, id)
      case None => None
      case Some(i) => Some(i + 1)
  }

  /** `Array.prototype.find(x => x.id === id)`: the first element whose `key`
      is `id`, or nothing. */
  function FindBy<T>(s: seq<T>, key: T -> int, id: int): (r: Option<T>)
    ensures r.None? <==> NoMatch(s, key, id)
    ensures forall i :: IsFirstMatch(s, key, id, i) ==> r == Some(s[i])
  {
    match IndexBy(s, key, id)
    case None => None
    case Some(i) => Some(s[i])
  }

  /** Strictly increasing keys, as AUTO_INCREMENT ids in insertion order. */
  predicate KeysAscending<T>(s: seq<T>, key: T -> int) {
    forall i, j :: 0 <= i < j < |s| ==> key(s[i]) < key(s[j])
  }

  /** With strictly increasing keys, the lookup of an element's key finds that
      element. */
  lemma FindByAscending<T>(s: seq<T>, key: T -> int, i: int)
    requires KeysAscending(s, key) && 0 <= i < |s|
    ensures IndexBy(s, key, key(s[i])) == Some(i)
    ensures FindBy(s, key, key(s[i])) == Some(s[i])
  {
    assert IsFirstMatch(s, key, key(s[i]), i);
  }

  /** `ORDER BY key DESC`: every element is on or after each later one. */
  predicate SortedDescBy<T>(s: seq<T>, key: T -> Date) {
    forall i, j :: 0 <= i < j < |s| ==> DateLe(key(s[j]), key(s[i]))
  }

  function InsertDescBy<T(!new)>(x: T, s: seq<T>, key: T -> Date): (r: seq<T>)
    requires SortedDescBy(s, key)
    ensures |r| == |s| + 1
    ensures SortedDescBy(r, key)
    ensures multiset(r) == multiset(s) + multiset{x}
    ensures forall y :: y in r ==> y == x || y in s
  {
    if s == [] then [x]
    else if DateLe(key(s[0]), key(x)) then
      assert forall j :: 0 <= j < |s| ==> DateLe(key(s[j]), key(s[0]));
      assert forall j :: 0 <= j < |s| ==> DateLe(key(s[j]), key(x)) by {
        forall j | 0 <= j < |s| ensures DateLe(key(s[j]), key(x)) {
          DateLeTransitive(key(s[j]), key(s[0]), key(x));
        }
      }
      [x] + s
    else
      var t := InsertDescBy(x, s[1..], key);
      assert s == [s[0]] + s[1..];
      DateLeTotal(key(s[0]), key(x));
      assert forall y :: y in t ==> DateLe(key(y), key(s[0]));
      var r := [s[0]] + t;
      assert forall j :: 0 < j < |r| ==> r[j] in t;
      r
  }

  /** The rows of `s` rearranged in descending order of `key`. */
  function SortDescBy<T(!new)>(s: seq<T>, key: T -> Date): (r: seq<T>)
    ensures |r| == |s|
    ensures SortedDescBy(r, key)
    ensures multiset(r) == multiset(s)
  {
    if s == [] then []
    else
      assert s == [s[0]] + s[1..];
      InsertDescBy(s[0], SortDescBy(s[1..], key), key)
  }

  /** The values of one column: `key` applied to every row, in order. */
  function Column<T, K>(s: seq<T>, key: T -> K): (c: seq<K>)
    ensures |c| == |s|
    ensures forall i :: 0 <= i < |s| ==> c[i] == key(s[i])
  {
    if s == [] then [] else [key(s[0])] + Column(s[1..], key)
  }

  lemma ColumnAppend<T, K>(s: seq<T>, x: T, key: T -> K)
    ensures Column(s + [x], key) == Column(s, key) + [key(x)]
  {
    assert |Column(s + [x], key)| == |Column(s, key) + [key(x)]|;
  }

  lemma {:induction false} ColumnConcat<T, K>(a: seq<T>, b: seq<T>, key: T -> K)
    ensures Column(a + b, key) == Column(a, key) + Column(b, key)
  {
    if a == [] {
      assert a + b == b;
    } else {
      assert (a + b)[1..] == a[1..] + b;
      ColumnConcat(a[1..], b, key);
    }
  }

  /** Replacing a row by one with the same value in the column leaves the
      column as it was. */
  lemma ColumnUpdateSame<T, K>(s: seq<T>, i: int, x: T, key: T -> K)
    requires 0 <= i < |s| && key(x) == key(s[i])
    ensures Column(s[i := x], key) == Column(s, key)
  {
    assert |Column(s[i := x], key)| == |Column(s, key)|;
  }

  /** A UNIQUE NOT NULL column: no value occurs twice. */
  predicate Distinct<K(==)>(c: seq<K>) {
    forall i, j :: 0 <= i < j < |c| ==> c[i] != c[j]
  }

  /** A UNIQUE nullable column: no non-null value occurs twice; NULLs never clash. */
  predicate DistinctSome<K(==)>(c: seq<Option<K>>) {
    forall i, j :: 0 <= i < j < |c| && c[i].Some? ==> c[i] != c[j]
  }

  lemma DistinctAppend<K>(c: seq<K>, v: K)
    requires Distinct(c) && v !in c
    ensures Distinct(c + [v])
  {
  }

  lemma DistinctSomeAppend<K>(c: seq<Option<K>>, v: Option<K>)
    requires DistinctSome(c) && (v.Some? ==> v !in c)
    ensures DistinctSome(c + [v])
  {
    forall i, j | 0 <= i < j < |c| + 1 && (c + [v])[i].Some?
      ensures (c + [v])[i] != (c + [v])[j]
    {
      if j == |c| && v.Some? {
        assert (c + [v])[i] == c[i];
      }
    }
  }

  /** `UPDATE ... SET ... WHERE key = id`: every row whose key is `id` is
      rewritten by `f`; the others are kept. */
  function UpdateWhere<T>(s: seq<T>, key: T -> int, id: int, f: T -> T): (r: seq<T>)
    ensures |r| == |s|
    ensures forall i :: 0 <= i < |s| ==> r[i] == if key(s[i]) == id then f(s[i]) else s[i]
  {
    if s == [] then []
    else [if key(s[0]) == id then f(s[0]) else s[0]] + UpdateWhere(s[1..], key, id, f)
  }

  /** With strictly increasing keys the update touches exactly one row. */
  lemma UpdateWhereAscending<T>(s: seq<T>, key: T -> int, f: T -> T, i: int)
    requires KeysAscending(s, key) && 0 <= i < |s|
    ensures UpdateWhere(s, key, key(s[i]), f) == s[i := f(s[i])]
  {
  }
}
