/** The JavaScript `Map` that the in-memory store keeps per entity: integer
    keys, and iteration (`values()`) in the order keys were first inserted. */
module OrderedMaps {
  import opened Wrappers
  import Seqs

  datatype OrderedMap<V> = OrderedMap(keys: seq<int>, rows: map<int, V>)

  /** Every key is listed once, and the listed keys are the stored ones. */
  ghost predicate Valid<V>(m: OrderedMap<V>) {
    && Seqs.Distinct(m.keys)
    && (forall k :: k in m.rows <==> k in m.keys)
    && (forall i :: 0 <= i < |m.keys| ==> m.keys[i] in m.rows)
  }

  function Empty<V>(): (m: OrderedMap<V>)
    ensures Valid(m) && m.rows == map[] && m.keys == []
  {
    OrderedMap([], map[])
  }

  /** `map.get(k)`: the absence value when k is not stored. */
  function Get<V>(m: OrderedMap<V>, k: int): (r: Option<V>)
    ensures r.Some? <==> k in m.rows
    ensures r.Some? ==> r.value == m.rows[k]
  {
    if k in m.rows then Some(m.rows[k]) else None
  }

  /** `map.set(k, v)`: an existing key keeps its position, a new one goes last. */
  function Put<V>(m: OrderedMap<V>, k: int, v: V): (r: OrderedMap<V>)
    requires Valid(m)
    ensures Valid(r)
    ensures Get(r, k) == Some(v)
    ensures forall j :: j != k ==> Get(r, j) == Get(m, j)
    ensures r.rows == m.rows[k := v]
    ensures k in m.rows ==> r.keys == m.keys
    ensures k !in m.rows ==> r.keys == m.keys + [k]
  {
    if k in m.rows then OrderedMap(m.keys, m.rows[k := v])
    else OrderedMap(m.keys + [k], m.rows[k := v])
  }

  /** Deleting a set of keys; the remaining keys keep their order. */
  function RemoveKeys<V>(m: OrderedMap<V>, ks: set<int>): (r: OrderedMap<V>)
    requires Valid(m)
    ensures Valid(r)
    ensures forall j :: Get(r, j) == if j in ks then None else Get(m, j)
    ensures Seqs.IsSubsequence(r.keys, m.keys)
  {
    Seqs.FilterDistinct(m.keys, j => j !in ks);
    OrderedMap(Seqs.Filter(m.keys, j => j !in ks), m.rows - ks)
  }

  /** `map.delete(k)`. */
  function Delete<V>(m: OrderedMap<V>, k: int): (r: OrderedMap<V>)
    requires Valid(m)
    ensures Valid(r)
    ensures Get(r, k) == None
    ensures forall j :: j != k ==> Get(r, j) == Get(m, j)
    ensures Seqs.IsSubsequence(r.keys, m.keys)
  {
    RemoveKeys(m, {k})
  }

  /** Deleting in two rounds is deleting the union at once. */
  lemma RemoveKeysTwice<V>(m: OrderedMap<V>, a: set<int>, b: set<int>)
    requires Valid(m)
    ensures RemoveKeys(RemoveKeys(m, a), b) == RemoveKeys(m, a + b)
  {
    Seqs.FilterFilter(m.keys, j => j !in a, j => j !in b, j => j !in a + b);
    assert (m.rows - a) - b == m.rows - (a + b);
  }

  /** v is stored under some key of m. */
  ghost predicate Holds<V>(m: OrderedMap<V>, v: V) {
    exists k :: k in m.rows && m.rows[k] == v
  }

  /** `Array.from(map.values())`: one value per stored key, in key order. */
  function Values<V(!new)>(m: OrderedMap<V>): (r: seq<V>)
    requires Valid(m)
    ensures |r| == |m.keys| == |m.rows|
    ensures forall i :: 0 <= i < |r| ==> r[i] == m.rows[m.keys[i]]
    ensures forall v :: v in r <==> Holds(m, v)
  {
    var r := seq(|m.keys|, i requires 0 <= i < |m.keys| => m.rows[m.keys[i]]);
    KeysCardinality(m);
    forall v | v in r ensures Holds(m, v) {
      var i :| 0 <= i < |r| && r[i] == v;
      var k := m.keys[i];
      assert k in m.rows && m.rows[k] == v;
    }
    r
  }

  /** Every stored value is listed. */
  lemma Listed<V(!new)>(m: OrderedMap<V>, k: int)
    requires Valid(m) && k in m.rows
    ensures m.rows[k] in Values(m)
  {
    assert Holds(m, m.rows[k]);
  }

  lemma KeysCardinality<V>(m: OrderedMap<V>)
    requires Valid(m)
    ensures |m.rows| == |m.keys|
  {
    Seqs.DistinctCardinality(m.keys);
    var ks := set k | k in m.keys;
    assert forall k :: k in m.rows.Keys <==> k in ks;
    assert m.rows.Keys == ks;
  }

  /** The values stored under a list of keys, in list order. */
  ghost function ValuesAt<V>(ks: seq<int>, rows: map<int, V>): (r: seq<V>)
    requires forall i :: 0 <= i < |ks| ==> ks[i] in rows
  {
    seq(|ks|, i requires 0 <= i < |ks| => rows[ks[i]])
  }

  /** When every value carries its own key, deleting keys removes exactly the
      values carrying them and keeps the others in order. */
  lemma ValuesRemoveKeys<V(!new)>(m: OrderedMap<V>, ks: set<int>, id: V -> int, keep: V -> bool)
    requires Valid(m)
    requires forall k :: k in m.rows ==> id(m.rows[k]) == k
    requires forall v :: keep(v) == (id(v) !in ks)
    ensures Values(RemoveKeys(m, ks)) == Seqs.Filter(Values(m), keep)
  {
    var r := RemoveKeys(m, ks);
    assert Values(r) == ValuesAt(r.keys, r.rows);
    assert Values(m) == ValuesAt(m.keys, m.rows);
    FilterKeysValues(m.keys, m.rows, ks, id, keep);
  }

  lemma {:induction false} FilterKeysValues<V(!new)>(ks: seq<int>, rows: map<int, V>, gone: set<int>,
                                                     id: V -> int, keep: V -> bool)
    requires forall i :: 0 <= i < |ks| ==> ks[i] in rows
    requires forall k :: k in rows ==> id(rows[k]) == k
    requires forall v :: keep(v) == (id(v) !in gone)
    ensures var fs := Seqs.Filter(ks, j => j !in gone);
            (forall i :: 0 <= i < |fs| ==> fs[i] in rows - gone) &&
            ValuesAt(fs, rows - gone) == Seqs.Filter(ValuesAt(ks, rows), keep)
  {
    if ks != [] {
      assert ks[0] in rows;
      assert id(rows[ks[0]]) == ks[0];
      FilterKeysStep(ks, rows, gone, keep);
      FilterKeysValues(ks[1..], rows, gone, id, keep);
    }
  }

  lemma FilterKeysStep<V(!new)>(ks: seq<int>, rows: map<int, V>, gone: set<int>, keep: V -> bool)
    requires ks != []
    requires forall i :: 0 <= i < |ks| ==> ks[i] in rows
    requires keep(rows[ks[0]]) == (ks[0] !in gone)
    ensures var fs, fs' := Seqs.Filter(ks, j => j !in gone), Seqs.Filter(ks[1..], j => j !in gone);
            (forall i :: 0 <= i < |fs| ==> fs[i] in rows - gone) &&
            (forall i :: 0 <= i < |fs'| ==> fs'[i] in rows - gone) &&
            ValuesAt(fs, rows - gone) ==
              (if ks[0] in gone then [] else [rows[ks[0]]]) + ValuesAt(fs', rows - gone) &&
            Seqs.Filter(ValuesAt(ks, rows), keep) ==
              (if ks[0] in gone then [] else [rows[ks[0]]]) + Seqs.Filter(ValuesAt(ks[1..], rows), keep)
  {
    var vs := ValuesAt(ks, rows);
    assert vs[1..] == ValuesAt(ks[1..], rows);
  }
}
