/** Insertion-ordered dictionaries keyed by name (Python's dict / OrderedDict):
    a key sequence giving the iteration order plus a map holding the entries. */
module OrderedMaps {

  datatype Option<T> = None | Some(value: T)

  datatype OMap<V> = OMap(keys: seq<string>, vals: map<string, V>)
  {
    /** Keys are distinct and are exactly the map's domain. */
    ghost predicate Valid()
    {
      (forall i, j :: 0 <= i < j < |keys| ==> keys[i] != keys[j]) &&
      (forall k :: k in vals <==> k in keys)
    }
  }

  /** The ordered dictionaries the model builds are always well formed. */
  type OrderedMap<V> = m: OMap<V> | m.Valid() witness OMap([], map[])

  function Empty<V>(): (r: OrderedMap<V>)
    ensures r.keys == [] && r.vals == map[]
  {
    OMap([], map[])
  }

  predicate HasKey<V>(m: OrderedMap<V>, k: string) { k in m.vals }

  function Get<V>(m: OrderedMap<V>, k: string): Option<V>
  {
    if k in m.vals then Some(m.vals[k]) else None
  }

  /** d[k] = v: a new key is appended, an existing key keeps its position. */
  function Put<V>(m: OrderedMap<V>, k: string, v: V): (r: OrderedMap<V>)
    ensures r.vals == m.vals[k := v]
    ensures k in m.vals ==> r.keys == m.keys
    ensures k !in m.vals ==> r.keys == m.keys + [k]
  {
    if k in m.vals then OMap(m.keys, m.vals[k := v])
    else
      var r := OMap(m.keys + [k], m.vals[k := v]);
      assert forall i :: 0 <= i < |m.keys| ==> m.keys[i] in m.vals;
      r
  }

  /** Position of a key in the iteration order. */
  function IndexOf<V>(m: OrderedMap<V>, k: string): (i: nat)
    requires k in m.vals
    ensures i < |m.keys| && m.keys[i] == k
  {
    IndexIn(m.keys, k)
  }

  function IndexIn(ks: seq<string>, k: string): (i: nat)
    requires k in ks
    ensures i < |ks| && ks[i] == k
    ensures forall j :: 0 <= j < i ==> ks[j] != k
  {
    if ks[0] == k then 0 else 1 + IndexIn(ks[1..], k)
  }

  /** d.pop(k, None): drop the entry if present, keeping the order of the rest. */
  function Remove<V>(m: OrderedMap<V>, k: string): (r: OrderedMap<V>)
    ensures r.vals == m.vals - {k}
    ensures k !in m.vals ==> r == m
    ensures k in m.vals ==> var i := IndexOf(m, k); r.keys == m.keys[..i] + m.keys[i + 1..]
  {
    if k !in m.vals then m
    else
      var i := IndexOf(m, k);
      var ks := m.keys[..i] + m.keys[i + 1..];
      RemoveValid(m, i);
      OMap(ks, m.vals - {k})
  }

  lemma RemoveValid<V>(m: OrderedMap<V>, i: nat)
    requires i < |m.keys|
    ensures OMap(m.keys[..i] + m.keys[i + 1..], m.vals - {m.keys[i]}).Valid()
  {
    RemoveAt(m.keys, i);
  }

  /** Dropping position i of a distinct key sequence keeps it distinct and loses only that key. */
  lemma RemoveAt(ks: seq<string>, i: nat)
    requires i < |ks|
    requires forall a, b :: 0 <= a < b < |ks| ==> ks[a] != ks[b]
    ensures var r := ks[..i] + ks[i + 1..];
      (forall a, b :: 0 <= a < b < |r| ==> r[a] != r[b]) &&
      (forall x :: x in r <==> x in ks && x != ks[i])
  {
    var r := ks[..i] + ks[i + 1..];
    assert forall a :: 0 <= a < |r| ==> r[a] == (if a < i then ks[a] else ks[a + 1]);
    forall x | x in ks && x != ks[i] ensures x in r {
      var a :| 0 <= a < |ks| && ks[a] == x;
      if a < i { assert r[a] == x; } else { assert r[a - 1] == x; }
    }
  }

  /** No key occurs twice. */
  ghost predicate Distinct(s: seq<string>)
  {
    forall i, j :: 0 <= i < j < |s| ==> s[i] != s[j]
  }

  /** The keys of ks outside s, in their order. */
  function Without(ks: seq<string>, s: set<string>): (r: seq<string>)
    ensures |r| <= |ks|
    ensures forall k :: k in r <==> k in ks && k !in s
    decreases |ks|
  {
    if ks == [] then []
    else Without(ks[..|ks| - 1], s) + (if ks[|ks| - 1] in s then [] else [ks[|ks| - 1]])
  }

  lemma {:induction false} WithoutDistinct(ks: seq<string>, s: set<string>)
    requires Distinct(ks)
    ensures Distinct(Without(ks, s))
    decreases |ks|
  {
    if ks != [] {
      var init := ks[..|ks| - 1];
      var last := ks[|ks| - 1];
      WithoutDistinct(init, s);
      var r0 := Without(init, s);
      assert last !in init;
      var r := Without(ks, s);
      assert r == r0 + (if last in s then [] else [last]);
      forall i, j | 0 <= i < j < |r| ensures r[i] != r[j] {
        if j < |r0| {
          assert r[i] == r0[i] && r[j] == r0[j];
        } else {
          assert r[i] in r0 && r[j] == last;
        }
      }
    }
  }

  lemma {:induction false} WithoutNone(ks: seq<string>, s: set<string>)
    requires forall k :: k in ks ==> k !in s
    ensures Without(ks, s) == ks
    decreases |ks|
  {
    if ks != [] {
      var init := ks[..|ks| - 1];
      assert forall k :: k in init ==> k in ks;
      WithoutNone(init, s);
      assert ks[|ks| - 1] !in s;
      assert init + [ks[|ks| - 1]] == ks;
    }
  }

  lemma {:induction false} WithoutTwice(ks: seq<string>, a: set<string>, b: set<string>)
    ensures Without(Without(ks, a), b) == Without(ks, a + b)
    decreases |ks|
  {
    if ks != [] {
      var init := ks[..|ks| - 1];
      var last := ks[|ks| - 1];
      WithoutTwice(init, a, b);
      var w := Without(init, a);
      if last !in a {
        assert (w + [last])[..|w|] == w;
      } else {
        assert w + [] == w;
      }
    }
  }

  /** Every entry whose key is in s dropped, the rest in their order (`d.pop(k, None)` for each). */
  function Drop<V>(m: OrderedMap<V>, s: set<string>): (r: OrderedMap<V>)
    ensures r.keys == Without(m.keys, s) && r.vals == m.vals - s
  {
    WithoutDistinct(m.keys, s);
    OMap(Without(m.keys, s), m.vals - s)
  }

  /** Leaving out the one position holding k is filtering k out. */
  lemma {:induction false} WithoutOne(ks: seq<string>, i: nat)
    requires Distinct(ks) && i < |ks|
    ensures Without(ks, {ks[i]}) == ks[..i] + ks[i + 1..]
    decreases |ks|
  {
    var init := ks[..|ks| - 1];
    var last := ks[|ks| - 1];
    if i == |ks| - 1 {
      assert forall k :: k in init ==> k != last;
      WithoutNone(init, {last});
      assert ks[..i] == init && ks[i + 1..] == [];
    } else {
      assert init[i] == ks[i] && last != ks[i];
      WithoutOne(init, i);
      SnocSlices(ks, i);
    }
  }

  lemma SnocSlices(ks: seq<string>, i: nat)
    requires i < |ks| - 1
    ensures ks[..|ks| - 1][..i] + ks[..|ks| - 1][i + 1..] + [ks[|ks| - 1]] == ks[..i] + ks[i + 1..]
  {
    assert ks[..|ks| - 1][..i] == ks[..i];
    assert ks[..|ks| - 1][i + 1..] + [ks[|ks| - 1]] == ks[i + 1..];
  }

  /** pop(k, None) is dropping {k}. */
  lemma RemoveIsDrop<V>(m: OrderedMap<V>, k: string)
    ensures Remove(m, k) == Drop(m, {k})
  {
    if k in m.vals {
      RemovePresent(m, k);
    } else {
      RemoveMissing(m, k);
    }
  }

  lemma RemovePresent<V>(m: OrderedMap<V>, k: string)
    requires k in m.vals
    ensures Remove(m, k) == Drop(m, {k})
  {
    WithoutOne(m.keys, IndexOf(m, k));
  }

  lemma RemoveMissing<V>(m: OrderedMap<V>, k: string)
    requires k !in m.vals
    ensures Remove(m, k) == Drop(m, {k})
  {
    assert forall x :: x in m.keys ==> x !in {k};
    WithoutNone(m.keys, {k});
    assert m.vals - {k} == m.vals;
  }

  lemma DropTwice<V>(m: OrderedMap<V>, a: set<string>, b: set<string>)
    ensures Drop(Drop(m, a), b) == Drop(m, a + b)
  {
    WithoutTwice(m.keys, a, b);
    assert m.vals - a - b == m.vals - (a + b);
  }

  lemma DropNothing<V>(m: OrderedMap<V>)
    ensures Drop(m, {}) == m
  {
    WithoutNone(m.keys, {});
    assert m.vals - {} == m.vals;
  }

  /** The entries in iteration order (d.values()). */
  function Values<V>(m: OrderedMap<V>): (r: seq<V>)
    ensures |r| == |m.keys|
    ensures forall i :: 0 <= i < |r| ==> r[i] == m.vals[m.keys[i]]
  {
    ValuesOf(m.keys, m.vals)
  }

  function ValuesOf<V>(ks: seq<string>, vals: map<string, V>): (r: seq<V>)
    requires forall i :: 0 <= i < |ks| ==> ks[i] in vals
    ensures |r| == |ks|
    ensures forall i :: 0 <= i < |r| ==> r[i] == vals[ks[i]]
  {
    if ks == [] then [] else [vals[ks[0]]] + ValuesOf(ks[1..], vals)
  }

  /** A new key's value comes last in d.values(). */
  lemma ValuesPutNew<V>(m: OrderedMap<V>, k: string, v: V)
    requires k !in m.vals
    ensures Values(Put(m, k, v)) == Values(m) + [v]
  {
    var m2 := Put(m, k, v);
    var r := Values(m2);
    var a := Values(m) + [v];
    assert m2.keys == m.keys + [k] && m2.vals == m.vals[k := v];
    forall i | 0 <= i < |r|
      ensures r[i] == a[i]
    {
      if i < |m.keys| {
        assert m2.keys[i] == m.keys[i] && m.keys[i] in m.vals;
      }
    }
  }
}
