/** A JavaScript `Map`: keyed entries that remember the order in which keys
    were first inserted. Setting an existing key keeps its place; deleting a
    key and setting it again moves it to the end. */
module JsMap {

  /** `s` with every occurrence of `k` removed, the rest in order. */
  function Without(s: seq<string>, k: string): (r: seq<string>)
    ensures forall x :: x in r <==> x in s && x != k
    ensures Distinct(s) ==> Distinct(r)
    ensures k !in s ==> r == s
    ensures Distinct(s) && k in s ==> |r| == |s| - 1
  {
    if s == [] then []
    else if s[0] == k then Without(s[1..], k)
    else
      assert Distinct(s) ==> Distinct(s[1..]) && s[0] !in s[1..];
      [s[0]] + Without(s[1..], k)
  }

  /** No key occurs twice. */
  predicate Distinct(s: seq<string>) {
    s == [] || (s[0] !in s[1..] && Distinct(s[1..]))
  }

  /** A key not yet present may be appended. */
  lemma {:induction false} DistinctSnoc(s: seq<string>, k: string)
    requires Distinct(s) && k !in s
    ensures Distinct(s + [k])
  {
    if s == [] {
      assert [k][1..] == [];
    } else {
      assert (s + [k])[1..] == s[1..] + [k];
      DistinctSnoc(s[1..], k);
    }
  }

  datatype OrderedMap<V> = OrderedMap(keys: seq<string>, entries: map<string, V>) {

    /** The keys in insertion order are exactly the keys of the entries, each once. */
    ghost predicate Valid() {
      && Distinct(keys)
      && (forall k :: k in entries <==> k in keys)
    }

    predicate Has(k: string) {
      k in entries
    }

    /** `map.set(k, v)`. */
    function Set(k: string, v: V): (r: OrderedMap<V>)
      requires Valid()
      ensures r.Valid()
      ensures r.Has(k) && r.entries[k] == v
      ensures forall j :: j != k ==> (r.Has(j) <==> Has(j))
      ensures forall j :: j != k && Has(j) ==> r.Has(j) && r.entries[j] == entries[j]
      ensures Has(k) ==> r.keys == keys
      ensures !Has(k) ==> r.keys == keys + [k]
    {
      if k in entries then OrderedMap(keys, entries[k := v])
      else DistinctSnoc(keys, k); OrderedMap(keys + [k], entries[k := v])
    }

    /** `map.delete(k)`. */
    function Delete(k: string): (r: OrderedMap<V>)
      requires Valid()
      ensures r.Valid()
      ensures !r.Has(k)
      ensures forall j :: j != k ==> (r.Has(j) <==> Has(j))
      ensures forall j :: j != k && Has(j) ==> r.Has(j) && r.entries[j] == entries[j]
      ensures r.keys == Without(keys, k)
      ensures Has(k) ==> |r.keys| == |keys| - 1
      ensures !Has(k) ==> r == this
    {
      OrderedMap(Without(keys, k), entries - {k})
    }

    /** `Array.from(map.values())`: the values in insertion order. */
    function Values(): (vs: seq<V>)
      requires Valid()
      ensures |vs| == |keys|
      ensures forall i :: 0 <= i < |keys| ==> vs[i] == entries[keys[i]]
    {
      seq(|keys|, i requires 0 <= i < |keys| => entries[keys[i]])
    }
  }

  /** `new Map()`. */
  function Empty<V>(): (m: OrderedMap<V>)
    ensures m.Valid()
    ensures forall k :: !m.Has(k)
    ensures m.keys == []
  {
    OrderedMap([], map[])
  }
}
