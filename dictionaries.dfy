/** `System.Collections.Generic.Dictionary` as the model needs it. Nothing in
    the modelled code ever removes an entry, and a dictionary that has never
    had an entry removed enumerates its entries in insertion order; so a
    dictionary is its keys in insertion order together with the key-value
    map. Keys are compared with Dafny's equality, which for strings is the
    ordinal (case-sensitive, character by character) comparison. */
module Dictionaries {
  import opened Wrappers

  /** No element of `s` occurs twice. */
  predicate Distinct<K(==)>(s: seq<K>) {
    forall i, j :: 0 <= i < j < |s| ==> s[i] != s[j]
  }

  datatype Dictionary<K(==), V> = Dictionary(keys: seq<K>, items: map<K, V>) {

    /** The enumeration order lists every key of the map exactly once. */
    ghost predicate Valid() {
      && Distinct(keys)
      && items.Keys == (set k | k in keys)
    }

    /** The indexer setter `d[k] = v`: a present key keeps its place in the
        enumeration order and gets the new value; a new key goes last. */
    function Set(k: K, v: V): (r: Dictionary<K, V>)
      ensures Valid() ==> r.Valid()
      ensures r.items == items[k := v]
      ensures k in items ==> r.keys == keys
      ensures k !in items ==> r.keys == keys + [k]
    {
      if k in items then Dictionary(keys, items[k := v])
      else Dictionary(keys + [k], items[k := v])
    }

    /** `d.Add(k, v)`: like the setter on a new key, but a key that is
        already present makes it throw an ArgumentException (`None`). */
    function Add(k: K, v: V): (r: Option<Dictionary<K, V>>)
      ensures r.None? <==> k in items
      ensures r.Some? ==> r.value.items == items[k := v] && r.value.keys == keys + [k]
      ensures Valid() && r.Some? ==> r.value.Valid()
    {
      if k in items then None else Some(Set(k, v))
    }
  }

  function Empty<K(==), V>(): (d: Dictionary<K, V>)
    ensures d.Valid() && d.keys == [] && d.items == map[]
  {
    Dictionary([], map[])
  }

  /** The keys of `s` in order of first occurrence: the enumeration order of a
      dictionary into which the keys of `s` were set one after the other. */
  function Deduplicated<K(==)>(s: seq<K>): (r: seq<K>)
    ensures Distinct(r)
    ensures (set x | x in r) == (set x | x in s)
    ensures |r| <= |s|
  {
    if s == [] then []
    else
      var init, last := s[..|s| - 1], s[|s| - 1];
      assert s == init + [last];
      var d := Deduplicated(init);
      if last in d then d
      else
        assert (set x | x in d + [last]) == (set x | x in d) + {last};
        d + [last]
  }

  /** Setting the keys of a sequence that has no repetition keeps their order. */
  lemma {:induction false} DeduplicatedOfDistinct<K>(s: seq<K>)
    requires Distinct(s)
    ensures Deduplicated(s) == s
  {
    if s != [] {
      var init := s[..|s| - 1];
      assert Distinct(init);
      DeduplicatedOfDistinct(init);
      assert s[|s| - 1] !in init;
      assert init + [s[|s| - 1]] == s;
    }
  }

  /** Setting one more key extends the first-occurrence order accordingly. */
  lemma SetDeduplicated<K, V>(d: Dictionary<K, V>, s: seq<K>, k: K, v: V)
    requires d.Valid() && d.keys == Deduplicated(s)
    ensures d.Set(k, v).keys == Deduplicated(s + [k])
  {
    assert (s + [k])[..|s|] == s;
  }
}
