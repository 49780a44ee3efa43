/** The Python values the OpenAPI generator builds: JSON-like data, insertion-ordered
    dicts (`OrderedDict`, and plain dicts whose key order does not matter) and
    `sorted(d.items())`. */
module PyValues {
  import opened PyText

  /** A JSON-serialisable Python value, as found in user-supplied custom endpoint data,
      field defaults and enum lists. */
  datatype Json =
    | JNull
    | JBool(b: bool)
    | JInt(i: int)
    | JFloat(f: real)
    | JStr(s: string)
    | JList(items: seq<Json>)
    | JDict(entries: seq<(string, Json)>)

  /** Python's `bool(value)`. */
  predicate Truthy(j: Json) {
    match j
    case JNull => false
    case JBool(b) => b
    case JInt(i) => i != 0
    case JFloat(f) => f != 0.0
    case JStr(s) => s != ""
    case JList(items) => items != []
    case JDict(entries) => entries != []
  }

  /** The keys of an ordered dict, in insertion order. */
  function Keys<V>(d: seq<(string, V)>): (ks: seq<string>)
    ensures |ks| == |d| && forall i :: 0 <= i < |d| ==> ks[i] == d[i].0
  {
    if d == [] then [] else [d[0].0] + Keys(d[1..])
  }

  predicate DistinctKeys<V>(d: seq<(string, V)>) {
    forall i, j :: 0 <= i < j < |d| ==> d[i].0 != d[j].0
  }

  /** The position of key `k` (which must be present): its first occurrence. */
  function IndexOfKey<V>(d: seq<(string, V)>, k: string): (i: nat)
    requires k in Keys(d)
    ensures i < |d| && d[i].0 == k
    ensures forall j :: 0 <= j < i ==> d[j].0 != k
  {
    if d[0].0 == k then 0 else 1 + IndexOfKey(d[1..], k)
  }

  lemma {:induction false} IndexOfKeyIsFirst<V>(d: seq<(string, V)>, k: string, i: nat)
    requires i < |d| && d[i].0 == k
    requires forall j :: 0 <= j < i ==> d[j].0 != k
    ensures k in Keys(d) && IndexOfKey(d, k) == i
  {
    assert Keys(d)[i] == k;
    if d[0].0 != k {
      assert Keys(d[1..])[i - 1] == k;
      IndexOfKeyIsFirst(d[1..], k, i - 1);
    }
  }

  /** `d.get(k)`: the value stored under the first occurrence of `k`, if any. */
  function Get<V>(d: seq<(string, V)>, k: string): Option<V>
  {
    if k in Keys(d) then Some(d[IndexOfKey(d, k)].1) else None
  }

  /** `d[k] = v` on an `OrderedDict`: an existing key keeps its place and takes the new
      value; a new key goes at the end. */
  function Set<V>(d: seq<(string, V)>, k: string, v: V): (r: seq<(string, V)>)
    ensures Keys(r) == if k in Keys(d) then Keys(d) else Keys(d) + [k]
    ensures Get(r, k) == Some(v)
    ensures forall k' :: k' != k ==> Get(r, k') == Get(d, k')
  {
    if k in Keys(d) then
      var i := IndexOfKey(d, k);
      ReplaceAtKey(d, k, v, i);
      d[i := (k, v)]
    else
      AppendKey(d, k, v);
      d + [(k, v)]
  }

  lemma ReplaceAtKey<V>(d: seq<(string, V)>, k: string, v: V, i: nat)
    requires k in Keys(d) && i == IndexOfKey(d, k)
    ensures var r := d[i := (k, v)];
            Keys(r) == Keys(d) && Get(r, k) == Some(v) &&
            forall k' :: k' != k ==> Get(r, k') == Get(d, k')
  {
    var r := d[i := (k, v)];
    assert Keys(r) == Keys(d);
    IndexOfKeyIsFirst(r, k, i);
    forall k' | k' != k && k' in Keys(d) ensures IndexOfKey(r, k') == IndexOfKey(d, k') {
      IndexOfKeyIsFirst(r, k', IndexOfKey(d, k'));
    }
  }

  lemma AppendKey<V>(d: seq<(string, V)>, k: string, v: V)
    requires k !in Keys(d)
    ensures var r := d + [(k, v)];
            Keys(r) == Keys(d) + [k] && Get(r, k) == Some(v) &&
            forall k' :: k' != k ==> Get(r, k') == Get(d, k')
  {
    var r := d + [(k, v)];
    assert Keys(r) == Keys(d) + [k];
    IndexOfKeyIsFirst(r, k, |d|);
    forall k' | k' != k ensures Get(r, k') == Get(d, k') {
      AppendKeyOther(d, k, v, k');
    }
  }

  lemma AppendKeyOther<V>(d: seq<(string, V)>, k: string, v: V, k': string)
    requires k' != k && Keys(d + [(k, v)]) == Keys(d) + [k]
    ensures Get(d + [(k, v)], k') == Get(d, k')
  {
    var r := d + [(k, v)];
    if k' in Keys(d) {
      var j := IndexOfKey(d, k');
      IndexOfKeyIsFirst(r, k', j);
      assert r[j] == d[j];
    } else {
      assert k' !in Keys(r);
    }
  }

  /** `for k, v in items: d[k] = v` on an `OrderedDict`. */
  function SetAll<V>(d: seq<(string, V)>, items: seq<(string, V)>): seq<(string, V)>
    decreases |items|
  {
    if items == [] then d
    else
      var last := items[|items| - 1];
      Set(SetAll(d, items[..|items| - 1]), last.0, last.1)
  }

  /** The old keys keep their places, in front of any new ones. */
  lemma {:induction false} SetAllKeepsKeys<V>(d: seq<(string, V)>, items: seq<(string, V)>)
    ensures Keys(d) <= Keys(SetAll(d, items))
    decreases |items|
  {
    if items != [] {
      var last := items[|items| - 1];
      var prev := SetAll(d, items[..|items| - 1]);
      SetAllKeepsKeys(d, items[..|items| - 1]);
      assert Keys(prev) <= Keys(Set(prev, last.0, last.1));
    }
  }

  /** The keys after the updates are the old ones and the items'. */
  lemma {:induction false} SetAllKeys<V>(d: seq<(string, V)>, items: seq<(string, V)>)
    ensures forall k :: k in Keys(SetAll(d, items)) <==> k in Keys(d) || k in Keys(items)
    decreases |items|
  {
    if items != [] {
      var front := items[..|items| - 1];
      SetAllKeys(d, front);
      assert Keys(items) == Keys(front) + [items[|items| - 1].0];
    }
  }

  lemma KeysConcat<V>(a: seq<(string, V)>, b: seq<(string, V)>)
    ensures Keys(a + b) == Keys(a) + Keys(b)
  {
  }

  /** An item's key is among the keys. */
  lemma ItemKeyInKeys<V>(d: seq<(string, V)>, p: (string, V))
    requires p in d
    ensures p.0 in Keys(d)
  {
    var i :| 0 <= i < |d| && d[i] == p;
    assert Keys(d)[i] == p.0;
  }

  /** Every item after the updates is an old item or one of the new ones. */
  lemma {:induction false} SetAllItems<V>(d: seq<(string, V)>, items: seq<(string, V)>)
    ensures forall p :: p in SetAll(d, items) ==> p in d || p in items
    decreases |items|
  {
    if items != [] {
      var front := items[..|items| - 1];
      var last := items[|items| - 1];
      var prev := SetAll(d, front);
      SetAllItems(d, front);
      assert forall p :: p in Set(prev, last.0, last.1) ==> p in prev || p == last;
      assert forall p :: p in front ==> p in items;
    }
  }

  /** Every value after the updates is the old one or one of the items'. */
  lemma {:induction false} SetAllValues<V>(d: seq<(string, V)>, items: seq<(string, V)>, k: string)
    requires Get(SetAll(d, items), k).Some?
    ensures Get(SetAll(d, items), k) == Get(d, k) ||
            exists i :: 0 <= i < |items| && items[i] == (k, Get(SetAll(d, items), k).value)
    decreases |items|
  {
    if items != [] {
      var front := items[..|items| - 1];
      var last := items[|items| - 1];
      if k != last.0 {
        assert Get(SetAll(d, items), k) == Get(SetAll(d, front), k);
        SetAllValues(d, front, k);
        if Get(SetAll(d, items), k) != Get(d, k) {
          var i :| 0 <= i < |front| && front[i] == (k, Get(SetAll(d, items), k).value);
          assert items[i] == front[i];
        }
      }
    }
  }

  /** `sorted(d.items())` orders the items by key. */
  predicate SortedByKey<V>(d: seq<(string, V)>) {
    forall i, j :: 0 <= i < j < |d| ==> StrLessEq(d[i].0, d[j].0)
  }

  /** Inserting one item into an already sorted list of items. */
  function Insert<V(==)>(x: (string, V), d: seq<(string, V)>): (r: seq<(string, V)>)
    requires SortedByKey(d)
    ensures SortedByKey(r)
    ensures multiset(r) == multiset(d) + multiset{x}
    ensures |r| == |d| + 1
  {
    if d == [] then [x]
    else if StrLessEq(x.0, d[0].0) then
      InsertFrontSorted(x, d);
      [x] + d
    else
      StrLessTotal(x.0, d[0].0);
      var rest := Insert(x, d[1..]);
      assert d == [d[0]] + d[1..];
      InsertBehindSorted(d[0], x, d[1..], rest);
      [d[0]] + rest
  }

  lemma InsertFrontSorted<V>(x: (string, V), d: seq<(string, V)>)
    requires SortedByKey(d) && d != [] && StrLessEq(x.0, d[0].0)
    ensures SortedByKey([x] + d)
  {
    var r := [x] + d;
    forall i, j | 0 <= i < j < |r| ensures StrLessEq(r[i].0, r[j].0) {
      if i == 0 && j > 1 {
        assert StrLessEq(d[0].0, d[j - 1].0);
        if x.0 != d[0].0 && d[0].0 != d[j - 1].0 {
          StrLessTransitive(x.0, d[0].0, d[j - 1].0);
        }
      }
    }
  }

  lemma InsertBehindSorted<V>(y: (string, V), x: (string, V), d: seq<(string, V)>, rest: seq<(string, V)>)
    requires SortedByKey([y] + d) && SortedByKey(rest)
    requires StrLess(y.0, x.0)
    requires multiset(rest) == multiset(d) + multiset{x}
    ensures SortedByKey([y] + rest)
  {
    var r := [y] + rest;
    forall i, j | 0 <= i < j < |r| ensures StrLessEq(r[i].0, r[j].0) {
      if i == 0 {
        var z := rest[j - 1];
        assert r[j] == z;
        assert z in multiset(rest);
        assert z in multiset(d) || z == x;
        if z != x {
          var k :| 0 <= k < |d| && d[k] == z;
          var yd := [y] + d;
          assert yd[0] == y && yd[k + 1] == z;
          assert StrLessEq(yd[0].0, yd[k + 1].0);
        }
      } else {
        assert r[i] == rest[i - 1] && r[j] == rest[j - 1];
      }
    }
  }

  /** `sorted(d.items())`: the same items, ordered by key. */
  function SortedItems<V(==)>(d: seq<(string, V)>): (r: seq<(string, V)>)
    ensures SortedByKey(r)
    ensures multiset(r) == multiset(d)
    ensures |r| == |d|
  {
    if d == [] then [] else
      assert d == [d[0]] + d[1..];
      Insert(d[0], SortedItems(d[1..]))
  }

  /** `order` lists every element of `keys` exactly once, as `dict.keys()` does. */
  predicate IsEnumeration(order: seq<string>, keys: set<string>) {
    (forall i, j :: 0 <= i < j < |order| ==> order[i] != order[j]) &&
    (forall i :: 0 <= i < |order| ==> order[i] in keys) &&
    (forall k :: k in keys ==> k in order)
  }

  /** An enumeration lists each key once, so it is as long as the set. */
  lemma {:induction false} EnumerationSize(order: seq<string>, keys: set<string>)
    requires IsEnumeration(order, keys)
    ensures |order| == |keys|
    decreases |order|
  {
    if order != [] {
      var last := order[|order| - 1];
      var front := order[..|order| - 1];
      assert IsEnumeration(front, keys - {last}) by {
        forall k | k in keys - {last} ensures k in front {
          var i :| 0 <= i < |order| && order[i] == k;
          assert i < |order| - 1;
          assert front[i] == k;
        }
      }
      EnumerationSize(front, keys - {last});
    }
  }
}
