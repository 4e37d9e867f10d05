/** A stable sort by an integer key in which a missing key sorts after every present one. */
module Sorting {
  import opened Seqs

  /** A sort key: `missing` keys (an absent date) order after all present ones. */
  datatype Key = Key(missing: bool, value: int)

  predicate KeyLe(a: Key, b: Key)
  {
    if a.missing then b.missing else b.missing || a.value <= b.value
  }

  lemma KeyLeTotal(a: Key, b: Key)
    ensures KeyLe(a, b) || KeyLe(b, a)
  {
  }

  lemma KeyLeTrans(a: Key, b: Key, c: Key)
    requires KeyLe(a, b) && KeyLe(b, c)
    ensures KeyLe(a, c)
  {
  }

  ghost predicate SortedBy<T>(s: seq<T>, key: T -> Key)
  {
    forall i, j :: 0 <= i < j < |s| ==> KeyLe(key(s[i]), key(s[j]))
  }

  /** Inserts `x` before the first element whose key is not smaller. */
  function InsertBy<T>(x: T, s: seq<T>, key: T -> Key): (r: seq<T>)
    requires SortedBy(s, key)
    ensures SortedBy(r, key)
    ensures multiset(r) == multiset(s) + multiset{x}
  {
    if s == [] then [x]
    else if KeyLe(key(x), key(s[0])) then
      assert forall j :: 0 < j < |s| ==> KeyLe(key(s[0]), key(s[j]));
      [x] + s
    else
      var t := InsertBy(x, s[1..], key);
      assert multiset(s) == multiset{s[0]} + multiset(s[1..]) by {
        assert s == [s[0]] + s[1..];
      }
      HeadBelowInsert(x, s, key, t);
      [s[0]] + t
  }

  /** The head of a sorted sequence stays below everything once a larger element is inserted after it. */
  lemma HeadBelowInsert<T>(x: T, s: seq<T>, key: T -> Key, t: seq<T>)
    requires s != [] && SortedBy(s, key) && !KeyLe(key(x), key(s[0]))
    requires multiset(t) == multiset(s[1..]) + multiset{x}
    ensures forall j :: 0 <= j < |t| ==> KeyLe(key(s[0]), key(t[j]))
  {
    forall j | 0 <= j < |t|
      ensures KeyLe(key(s[0]), key(t[j]))
    {
      assert t[j] in multiset(t);
      if t[j] == x {
        KeyLeTotal(key(x), key(s[0]));
      } else {
        assert t[j] in multiset(s[1..]);
        var k :| 1 <= k < |s| && s[k] == t[j];
      }
    }
  }

  /** Stable insertion sort: `Array.prototype.sort` with an ascending key comparator. */
  function SortBy<T>(s: seq<T>, key: T -> Key): (r: seq<T>)
    ensures SortedBy(r, key)
    ensures multiset(r) == multiset(s)
    ensures |r| == |s|
  {
    if s == [] then []
    else
      assert s == [s[0]] + s[1..];
      InsertBy(s[0], SortBy(s[1..], key), key)
  }

  /** The test "has key `k`". */
  function KeyIs<T>(key: T -> Key, k: Key): T -> bool
  {
    (y: T) => key(y) == k
  }

  /** Inserting `x` puts it in front of the elements of `s` that share its key. */
  lemma {:induction false} InsertByStable<T>(x: T, s: seq<T>, key: T -> Key, k: Key)
    requires SortedBy(s, key)
    ensures Filter(InsertBy(x, s, key), KeyIs(key, k))
            == (if key(x) == k then [x] else []) + Filter(s, KeyIs(key, k))
  {
    var p := KeyIs(key, k);
    var own := if key(x) == k then [x] else [];
    if s == [] {
      assert InsertBy(x, s, key) == [x];
    } else if KeyLe(key(x), key(s[0])) {
      assert InsertBy(x, s, key) == [x] + s;
      FilterConcat([x], s, p);
    } else {
      var head := if key(s[0]) == k then [s[0]] else [];
      var t := InsertBy(x, s[1..], key);
      assert InsertBy(x, s, key) == [s[0]] + t;
      TailSorted(s, key);
      InsertByStable(x, s[1..], key, k);
      assert Filter(t, p) == own + Filter(s[1..], p);
      assert Filter([s[0]], p) == head;
      FilterConcat([s[0]], t, p);
      var rest := Filter(s[1..], p);
      assert Filter(InsertBy(x, s, key), p) == head + (own + rest);
      assert Filter(s, p) == head + rest;
      SwapFronts(head, own, rest);
    }
  }

  /** Two prefixes of which one is empty can be swapped. */
  lemma SwapFronts<T>(a: seq<T>, b: seq<T>, rest: seq<T>)
    requires a == [] || b == []
    ensures a + (b + rest) == b + (a + rest)
  {
    if a == [] {
      assert a + (b + rest) == b + rest;
    } else {
      assert b + (a + rest) == a + rest;
    }
  }

  lemma TailSorted<T>(s: seq<T>, key: T -> Key)
    requires s != [] && SortedBy(s, key)
    ensures SortedBy(s[1..], key)
  {
    forall i, j | 0 <= i < j < |s[1..]|
      ensures KeyLe(key(s[1..][i]), key(s[1..][j]))
    {
      assert s[1..][i] == s[i + 1] && s[1..][j] == s[j + 1];
    }
  }

  /**
   * The sort is stable: the elements with any one key appear in the result in
   * the order they have in the input.
   */
  lemma {:induction false} SortByStable<T>(s: seq<T>, key: T -> Key, k: Key)
    ensures Filter(SortBy(s, key), KeyIs(key, k)) == Filter(s, KeyIs(key, k))
  {
    if s != [] {
      SortByStable(s[1..], key, k);
      InsertByStable(s[0], SortBy(s[1..], key), key, k);
    }
  }
}
