/** Python's `dict`: a finite map that remembers the order in which its keys
    were first inserted. Assigning to a key already present replaces its
    value and keeps its position. */
module OrderedMaps {

  datatype OrderedMap<K(==,!new), V> = OrderedMap(keys: seq<K>, items: map<K, V>) {

    /** Keys are listed once each, and exactly the keys of `items`. */
    ghost predicate Valid() {
      && (forall i, j :: 0 <= i < j < |keys| ==> keys[i] != keys[j])
      && (forall k :: k in items <==> k in keys)
    }

    /** `d[k] = v`. */
    function Put(k: K, v: V): (r: OrderedMap<K, V>)
      ensures Valid() ==> r.Valid()
      ensures k in r.items && r.items[k] == v
      ensures forall k' :: k' != k ==> (k' in r.items <==> k' in items)
      ensures forall k' :: k' != k && k' in items ==> r.items[k'] == items[k']
      ensures k in items ==> r.keys == keys
      ensures k !in items ==> r.keys == keys + [k]
    {
      if k in items then OrderedMap(keys, items[k := v]) else OrderedMap(keys + [k], items[k := v])
    }
  }

  function Empty<K(==,!new), V>(): (r: OrderedMap<K, V>)
    ensures r.Valid() && r.keys == [] && r.items == map[]
  {
    OrderedMap([], map[])
  }

  /** The elements of `s` in order of first occurrence, each once: the key
      order of a dict filled by assigning to each element of `s` in turn. */
  function FirstOccurrences<K(==,!new)>(s: seq<K>): (r: seq<K>)
    ensures forall k :: k in r <==> k in s
    ensures forall i, j :: 0 <= i < j < |r| ==> r[i] != r[j]
  {
    if |s| == 0 then []
    else
      var d := FirstOccurrences(s[..|s| - 1]);
      assert forall k :: k in s <==> k in s[..|s| - 1] || k == s[|s| - 1];
      if s[|s| - 1] in d then d else d + [s[|s| - 1]]
  }

  /** Extending the list by one element extends its first occurrences by
      that element exactly when it is new. */
  lemma FirstOccurrencesSnoc<K(!new)>(s: seq<K>, k: K)
    ensures FirstOccurrences(s + [k]) == if k in s then FirstOccurrences(s) else FirstOccurrences(s) + [k]
  {
    assert (s + [k])[..|s + [k]| - 1] == s;
  }

  /** Assigning to one more key keeps a dict's keys the first occurrences
      of the keys assigned so far. */
  lemma PutFirstOccurrences<K(!new), V>(m: OrderedMap<K, V>, s: seq<K>, k: K, v: V)
    requires m.Valid() && m.keys == FirstOccurrences(s)
    ensures m.Put(k, v).Valid() && m.Put(k, v).keys == FirstOccurrences(s + [k])
  {
    FirstOccurrencesSnoc(s, k);
    assert k in m.items <==> k in s;
  }

  /** The dict filled by assigning `f(k)` to each element `k` of `ks` in
      turn. */
  function PutAll<K(==,!new), V>(ks: seq<K>, f: K -> V): (r: OrderedMap<K, V>)
    ensures r.Valid() && r.keys == FirstOccurrences(ks)
    ensures forall k :: k in r.items ==> r.items[k] == f(k)
    decreases |ks|
  {
    if |ks| == 0 then Empty()
    else PutAll(ks[..|ks| - 1], f).Put(ks[|ks| - 1], f(ks[|ks| - 1]))
  }

  /** Filling one more key is one more assignment. */
  lemma PutAllSnoc<K(!new), V>(ks: seq<K>, i: nat, f: K -> V)
    requires i < |ks|
    ensures PutAll(ks[..i + 1], f) == PutAll(ks[..i], f).Put(ks[i], f(ks[i]))
  {
    assert ks[..i + 1][..i] == ks[..i];
  }

  /** Extending a prefix by the next element. */
  lemma PrefixSnoc<T>(s: seq<T>, i: nat)
    requires i < |s|
    ensures s[..i + 1] == s[..i] + [s[i]]
  {
  }

  lemma PrefixFull<T>(s: seq<T>)
    ensures s[..|s|] == s
  {
  }
}
