/**
 * Python dictionaries whose iteration order matters, as association lists:
 * the pairs in insertion order, every key at most once.  Assigning to a key
 * that is already present keeps its position, as `d[k] = v` does.
 * Also the code-point order on strings and the key-sorted form of a
 * dictionary that `json.dumps(params, sort_keys=True)` writes out.
 */
module Dicts {
  import opened Wrappers

  /** The keys of an association list. */
  function Keys<K(==), V(==)>(d: seq<(K, V)>): set<K> {
    set p | p in d :: p.0
  }

  /** The pairs of an association list, as a set. */
  function Elems<T(==)>(s: seq<T>): set<T> {
    set x | x in s
  }

  predicate DistinctKeys<K(==), V(==)>(d: seq<(K, V)>) {
    d == [] || (d[0].0 !in Keys(d[1..]) && DistinctKeys(d[1..]))
  }

  type Dict<K(==), V(==)> = d: seq<(K, V)> | DistinctKeys(d) witness []

  lemma KeysCons<K, V>(d: seq<(K, V)>)
    requires d != []
    ensures Keys(d) == {d[0].0} + Keys(d[1..])
  {
    assert d == [d[0]] + d[1..];
    forall k | k in Keys(d) ensures k in {d[0].0} + Keys(d[1..]) {
      var p :| p in d && p.0 == k;
    }
  }

  /** Keys are distinct exactly when no two positions hold the same key. */
  lemma {:induction false} DistinctByIndex<K, V>(d: seq<(K, V)>)
    requires forall i, j :: 0 <= i < j < |d| ==> d[i].0 != d[j].0
    ensures DistinctKeys(d)
  {
    if d != [] {
      var tail := d[1..];
      forall i, j | 0 <= i < j < |tail| ensures tail[i].0 != tail[j].0 {
        assert tail[i] == d[i + 1] && tail[j] == d[j + 1];
      }
      DistinctByIndex(tail);
      forall p | p in tail ensures p.0 != d[0].0 {
        var j :| 0 <= j < |tail| && tail[j] == p;
        assert tail[j] == d[j + 1];
      }
    }
  }

  /** A dictionary with one more pair at the end had distinct keys before, and a new key. */
  lemma {:induction false} DistinctSnoc<K, V>(d: seq<(K, V)>, p: (K, V))
    requires DistinctKeys(d + [p])
    ensures DistinctKeys(d) && p.0 !in Keys(d)
  {
    if d != [] {
      assert (d + [p])[1..] == d[1..] + [p];
      assert Keys(d[1..] + [p]) == Keys(d[1..]) + {p.0};
      DistinctSnoc(d[1..], p);
      KeysCons(d);
    }
  }

  /** `d.get(k)`: the value stored under k, if any. */
  function Get<K(==), V(==)>(d: seq<(K, V)>, k: K): (r: Option<V>)
    ensures r.Some? <==> k in Keys(d)
    ensures r.Some? ==> (k, r.value) in d
  {
    if d == [] then None
    else (KeysCons(d); if d[0].0 == k then Some(d[0].1) else Get(d[1..], k))
  }

  /** In a dictionary, a key's stored value is the one its pair holds. */
  lemma {:induction false} GetOfMember<K, V>(d: Dict<K, V>, k: K, v: V)
    requires (k, v) in d
    ensures Get(d, k) == Some(v)
  {
    KeysCons(d);
    if d[0] != (k, v) {
      assert (k, v) in d[1..];
      assert k in Keys(d[1..]);
      GetOfMember(d[1..], k, v);
    }
  }

  /** `d[k] = v`: overwrite in place, or append a new key at the end. */
  function Set<K(==), V(==)>(d: Dict<K, V>, k: K, v: V): (r: Dict<K, V>)
    ensures Keys(r) == Keys(d) + {k}
    ensures k !in Keys(d) ==> r == d + [(k, v)]
    ensures k in Keys(d) ==> |r| == |d|
  {
    if d == [] then
      var r := [(k, v)];
      assert r[1..] == [];
      r
    else
      KeysCons(d);
      var r := if d[0].0 == k then [(k, v)] + d[1..] else [d[0]] + Set(d[1..], k, v);
      KeysCons(r);
      r
  }

  /** Looking up in a list with one more pair at the end. */
  lemma {:induction false} GetSnoc<K, V>(d: seq<(K, V)>, k: K, v: V, n: K)
    ensures Get(d + [(k, v)], n) == if n in Keys(d) then Get(d, n) else if n == k then Some(v) else None
  {
    if d == [] {
      assert ([] + [(k, v)])[1..] == [];
    } else {
      assert (d + [(k, v)])[1..] == d[1..] + [(k, v)];
      KeysCons(d);
      GetSnoc(d[1..], k, v, n);
    }
  }

  /** After `d[k] = v`, k reads v and every other key reads what it did. */
  lemma {:induction false} SetGet<K, V>(d: Dict<K, V>, k: K, v: V, k': K)
    ensures Get(Set(d, k, v), k') == if k' == k then Some(v) else Get(d, k')
  {
    if d != [] && d[0].0 != k {
      SetGet(d[1..], k, v, k');
    }
  }

  // ---------------------------------------------------------------------
  // Code-point order on strings, as Python compares str values

  /** a < b in Python's string order. */
  predicate Less(a: string, b: string) {
    if b == [] then false
    else if a == [] then true
    else if a[0] != b[0] then a[0] < b[0]
    else Less(a[1..], b[1..])
  }

  lemma {:induction false} LessIrreflexive(a: string)
    ensures !Less(a, a)
  {
    if a != [] { LessIrreflexive(a[1..]); }
  }

  lemma {:induction false} LessAsymmetric(a: string, b: string)
    requires Less(a, b)
    ensures !Less(b, a)
  {
    if a != [] && b != [] && a[0] == b[0] { LessAsymmetric(a[1..], b[1..]); }
  }

  lemma {:induction false} LessTransitive(a: string, b: string, c: string)
    requires Less(a, b) && Less(b, c)
    ensures Less(a, c)
  {
    if a != [] && a[0] == b[0] && b[0] == c[0] { LessTransitive(a[1..], b[1..], c[1..]); }
  }

  lemma {:induction false} LessTotal(a: string, b: string)
    requires a != b
    ensures Less(a, b) || Less(b, a)
  {
    if a != [] && b != [] && a[0] == b[0] {
      assert a == [a[0]] + a[1..] && b == [b[0]] + b[1..];
      LessTotal(a[1..], b[1..]);
    }
  }

  // ---------------------------------------------------------------------
  // Key-sorted form of a dictionary

  ghost predicate StrictlySorted<V>(s: seq<(string, V)>) {
    forall i, j :: 0 <= i < j < |s| ==> Less(s[i].0, s[j].0)
  }

  lemma ElemsCons<T>(s: seq<T>)
    requires s != []
    ensures Elems(s) == {s[0]} + Elems(s[1..])
  {
    assert s == [s[0]] + s[1..];
  }

  /** One step of insertion sort: p placed before the first larger key. */
  function InsertByKey<V(==)>(p: (string, V), s: seq<(string, V)>): (r: seq<(string, V)>)
    ensures Elems(r) == Elems(s) + {p}
    ensures Keys(r) == Keys(s) + {p.0}
  {
    if s == [] then [p]
    else if Less(p.0, s[0].0) then
      var r := [p] + s;
      assert r[1..] == s;
      ElemsCons(r);
      KeysCons(r);
      r
    else
      var tail := InsertByKey(p, s[1..]);
      var r := [s[0]] + tail;
      assert r[1..] == tail;
      ElemsCons(s);
      KeysCons(s);
      ElemsCons(r);
      KeysCons(r);
      r
  }

  lemma {:induction false} InsertByKeySorted<V>(p: (string, V), s: seq<(string, V)>)
    requires StrictlySorted(s) && p.0 !in Keys(s)
    ensures StrictlySorted(InsertByKey(p, s))
  {
    if s != [] {
      KeysCons(s);
      LessTotal(p.0, s[0].0);
      var r := InsertByKey(p, s);
      if Less(p.0, s[0].0) {
        forall i, j | 0 <= i < j < |r| ensures Less(r[i].0, r[j].0) {
          if i == 0 && j > 1 { LessTransitive(p.0, s[0].0, s[j - 1].0); }
        }
      } else {
        var tail := InsertByKey(p, s[1..]);
        InsertByKeySorted(p, s[1..]);
        assert r == [s[0]] + tail;
        forall j | 0 < j < |r| ensures Less(r[0].0, r[j].0) {
          assert r[j] == tail[j - 1];
          assert r[j] in Elems(tail);
          if r[j] != p {
            assert r[j] in s[1..];
            var m :| 0 <= m < |s[1..]| && s[1..][m] == r[j];
            assert s[m + 1] == r[j];
          }
        }
      }
    }
  }

  /** The pairs of d, ordered by key: what `sort_keys=True` serialises. */
  function SortByKey<V(==)>(d: Dict<string, V>): (r: seq<(string, V)>)
    ensures StrictlySorted(r)
    ensures Elems(r) == Elems(d)
    ensures Keys(r) == Keys(d)
  {
    if d == [] then []
    else
      KeysCons(d);
      assert Elems(d) == {d[0]} + Elems(d[1..]) by {
        assert d == [d[0]] + d[1..];
      }
      var rest := SortByKey(d[1..]);
      InsertByKeySorted(d[0], rest);
      InsertByKey(d[0], rest)
  }

  /** Only the empty sequence has no elements. */
  lemma ElemsEmpty<T>(s: seq<T>)
    ensures Elems(s) == {} <==> s == []
  {
    if s != [] {
      assert s[0] in Elems(s);
    }
  }

  /** Two strictly sorted lists that hold the same pairs are the same list. */
  lemma {:induction false} SortedUnique<V>(a: seq<(string, V)>, b: seq<(string, V)>)
    requires StrictlySorted(a) && StrictlySorted(b)
    requires Elems(a) == Elems(b)
    ensures a == b
  {
    if a == [] {
      ElemsEmpty(b);
    } else {
      assert a[0] in Elems(b);
      assert b != [];
      assert b[0] in Elems(a);
      var k :| 0 <= k < |b| && b[k] == a[0];
      var m :| 0 <= m < |a| && a[m] == b[0];
      if k > 0 {
        if m > 0 {
          LessAsymmetric(b[0].0, a[0].0);
        } else {
          LessIrreflexive(a[0].0);
        }
      }
      assert a[0] == b[0];
      assert Elems(a) == {a[0]} + Elems(a[1..]) by { assert a == [a[0]] + a[1..]; }
      assert Elems(b) == {b[0]} + Elems(b[1..]) by { assert b == [b[0]] + b[1..]; }
      assert a[0] !in Elems(a[1..]) by {
        if a[0] in a[1..] {
          var i :| 0 <= i < |a[1..]| && a[1..][i] == a[0];
          assert a[i + 1] == a[0];
          LessIrreflexive(a[0].0);
        }
      }
      assert b[0] !in Elems(b[1..]) by {
        if b[0] in b[1..] {
          var i :| 0 <= i < |b[1..]| && b[1..][i] == b[0];
          assert b[i + 1] == b[0];
          LessIrreflexive(b[0].0);
        }
      }
      SortedUnique(a[1..], b[1..]);
      assert a == [a[0]] + a[1..] && b == [b[0]] + b[1..];
    }
  }

  /**
   * The sorted form of a dictionary depends only on its pairs, not on the
   * order they were inserted in, and determines them.
   */
  lemma SortByKeyCanonical<V>(d1: Dict<string, V>, d2: Dict<string, V>)
    ensures SortByKey(d1) == SortByKey(d2) <==> Elems(d1) == Elems(d2)
  {
    if Elems(d1) == Elems(d2) {
      SortedUnique(SortByKey(d1), SortByKey(d2));
    }
  }
}
