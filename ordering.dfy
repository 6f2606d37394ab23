/** Newest-first ordering, the `ORDER BY … DESC` of the storage queries. */
module Ordering {
  /** `s` is ordered by `key`, largest first. */
  predicate NonIncreasing<T>(s: seq<T>, key: T -> int) {
    forall i, j | 0 <= i < j < |s| :: key(s[i]) >= key(s[j])
  }

  /** No two elements of `s` share an identifier. */
  predicate DistinctIds<T>(s: seq<T>, idOf: T -> int) {
    forall i, j | 0 <= i < j < |s| :: idOf(s[i]) != idOf(s[j])
  }

  /** The number of leading elements whose key is at least `x`'s. */
  function InsertionPoint<T>(s: seq<T>, x: T, key: T -> int): (k: nat)
    ensures k <= |s|
    ensures forall i | 0 <= i < k :: key(s[i]) >= key(x)
    ensures k < |s| ==> key(s[k]) < key(x)
  {
    if |s| == 0 || key(s[0]) < key(x) then 0 else 1 + InsertionPoint(s[1..], x, key)
  }

  /** `s` with `x` placed after every element whose key is at least its own. */
  function InsertByKey<T>(s: seq<T>, x: T, key: T -> int): (r: seq<T>)
    requires NonIncreasing(s, key)
    ensures |r| == |s| + 1
    ensures x in r && (forall y | y in s :: y in r)
    ensures forall y | y in r :: y == x || y in s
    ensures NonIncreasing(r, key)
  {
    var k := InsertionPoint(s, x, key);
    SplicedMembers(s, x, k);
    SplicedOrder(s, x, key, k);
    s[..k] + [x] + s[k..]
  }

  /** Splicing `x` in at `k` adds exactly `x` to the members of `s`. */
  lemma SplicedMembers<T>(s: seq<T>, x: T, k: nat)
    requires k <= |s|
    ensures var r := s[..k] + [x] + s[k..];
            && |r| == |s| + 1 && x in r
            && (forall y | y in s :: y in r)
            && (forall y | y in r :: y == x || y in s)
  {
    var r := s[..k] + [x] + s[k..];
    assert r[k] == x;
    forall y | y in s ensures y in r {
      var i :| 0 <= i < |s| && s[i] == y;
      if i < k { assert r[i] == y; } else { assert r[i + 1] == y; }
    }
  }

  /** Splicing `x` in at its insertion point keeps the order. */
  lemma SplicedOrder<T>(s: seq<T>, x: T, key: T -> int, k: nat)
    requires NonIncreasing(s, key) && k == InsertionPoint(s, x, key)
    ensures NonIncreasing(s[..k] + [x] + s[k..], key)
  {
    var r := s[..k] + [x] + s[k..];
    assert forall i | 0 <= i < |r| :: r[i] == if i < k then s[i] else if i == k then x else s[i - 1];
    forall j | k <= j < |s| ensures key(s[j]) < key(x) {
      assert key(s[j]) <= key(s[k]);
    }
  }

  /** Inserting an element whose identifier is new keeps the identifiers distinct. */
  lemma InsertKeepsIdsDistinct<T>(s: seq<T>, x: T, key: T -> int, idOf: T -> int)
    requires NonIncreasing(s, key) && DistinctIds(s, idOf)
    requires forall y | y in s :: idOf(y) != idOf(x)
    ensures DistinctIds(InsertByKey(s, x, key), idOf)
  {
    var k := InsertionPoint(s, x, key);
    var r := InsertByKey(s, x, key);
    assert r == s[..k] + [x] + s[k..];
    assert forall i | 0 <= i < |r| :: r[i] == if i < k then s[i] else if i == k then x else s[i - 1];
    assert forall i | 0 <= i < |s| :: idOf(s[i]) != idOf(x) by {
      forall i | 0 <= i < |s| ensures idOf(s[i]) != idOf(x) { assert s[i] in s; }
    }
  }

  /**
   * The rows of `m` that `keep` selects, newest first by `key`. Rows with the
   * same key may come out in any order, as they may from the database.
   */
  method CollectNewestFirst<T(==)>(m: map<int, T>, keep: T -> bool, key: T -> int, idOf: T -> int)
    returns (r: seq<T>)
    requires forall id | id in m :: idOf(m[id]) == id
    ensures NonIncreasing(r, key) && DistinctIds(r, idOf)
    ensures forall x | x in r :: idOf(x) in m && m[idOf(x)] == x && keep(x)
    ensures forall id | id in m && keep(m[id]) :: m[id] in r
  {
    var rest := m.Keys;
    r := [];
    while rest != {}
      invariant rest <= m.Keys
      invariant NonIncreasing(r, key) && DistinctIds(r, idOf)
      invariant forall x | x in r :: idOf(x) in m && m[idOf(x)] == x && keep(x) && idOf(x) !in rest
      invariant forall id | id in m && id !in rest && keep(m[id]) :: m[id] in r
      decreases |rest|
    {
      HasElement(rest);
      var id :| id in rest;
      if keep(m[id]) {
        InsertKeepsIdsDistinct(r, m[id], key, idOf);
        r := InsertByKey(r, m[id], key);
      }
      rest := rest - {id};
    }
  }

  /** A set other than the empty set has an element. */
  lemma HasElement(s: set<int>)
    requires s != {}
    ensures exists x :: x in s
  {
    if forall x :: x !in s {
      assert false;
    }
  }
}
