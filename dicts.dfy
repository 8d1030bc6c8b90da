/** Python's `dict` with string keys: a finite map that also remembers the
    order in which its keys were first inserted (iteration order). */
module Dicts {

  /** No key occurs twice in `s`. */
  ghost predicate Distinct(s: seq<string>) {
    forall i, j :: 0 <= i < j < |s| ==> s[i] != s[j]
  }

  datatype Dict<V> = Dict(keys: seq<string>, entries: map<string, V>) {

    /** The key order lists every key of the map exactly once. */
    ghost predicate Valid() {
      && Distinct(keys)
      && (forall k :: k in entries <==> k in keys)
    }

    /** `d[k] = v`: an existing key keeps its position and gets the new value;
        a new key is appended at the end of the iteration order. */
    function Put(k: string, v: V): (r: Dict<V>)
      requires Valid()
      ensures r.Valid()
      ensures k in r.entries && r.entries[k] == v
      ensures forall k' :: k' != k ==> (k' in r.entries <==> k' in entries)
      ensures forall k' :: k' != k && k' in entries ==> r.entries[k'] == entries[k']
      ensures k in entries ==> r.keys == keys
      ensures k !in entries ==> r.keys == keys + [k]
    {
      Dict(if k in entries then keys else keys + [k], entries[k := v])
    }

    /** `del d[k]` for a key that is present: the key leaves both the map and
        the iteration order, and every other key keeps its value and its
        relative position. */
    function Remove(k: string): (r: Dict<V>)
      requires Valid()
      requires k in entries
      ensures r.Valid()
      ensures k !in r.entries
      ensures forall k' :: k' != k ==> (k' in r.entries <==> k' in entries)
      ensures forall k' :: k' != k && k' in entries ==> r.entries[k'] == entries[k']
      ensures r.keys == keys[..IndexOf(keys, k)] + keys[IndexOf(keys, k) + 1..]
    {
      RemoveKeys(keys, entries, k);
      WithoutAt(keys, k, IndexOf(keys, k));
      Dict(Without(keys, k), entries - {k})
    }
  }

  /** The key list and the map of `del d[k]` stay in step. */
  lemma RemoveKeys<V>(keys: seq<string>, entries: map<string, V>, k: string)
    requires Dict(keys, entries).Valid() && k in entries
    ensures Dict(Without(keys, k), entries - {k}).Valid()
  {
    WithoutAt(keys, k, IndexOf(keys, k));
    SameMembers(keys, entries, k);
  }

  lemma SameMembers<V>(keys: seq<string>, entries: map<string, V>, k: string)
    requires forall x :: x in entries <==> x in keys
    ensures forall x :: x in entries - {k} <==> x in Without(keys, k)
  {
  }

  /** The dictionary `{}`. */
  function Empty<V>(): (r: Dict<V>)
    ensures r.Valid() && r.keys == [] && r.entries == map[]
  {
    Dict([], map[])
  }

  /** Two dicts with the same key order and the same value at every key are
      equal: a dict is determined by its iteration order and its values. */
  lemma SameDict<V>(a: Dict<V>, b: Dict<V>)
    requires a.Valid() && b.Valid() && a.keys == b.keys
    requires forall k :: k in a.entries ==> a.entries[k] == b.entries[k]
    ensures a == b
  {
    assert a.entries.Keys == b.entries.Keys;
  }

  /** Position of `k` in `s`. */
  function IndexOf(s: seq<string>, k: string): (i: nat)
    requires k in s
    ensures i < |s| && s[i] == k
    ensures forall j :: 0 <= j < i ==> s[j] != k
  {
    if s[0] == k then 0 else 1 + IndexOf(s[1..], k)
  }

  /** `s` with every occurrence of `k` dropped, order kept. */
  function Without(s: seq<string>, k: string): (r: seq<string>)
    ensures forall x :: x in r <==> x in s && x != k
  {
    if s == [] then [] else (if s[0] == k then [] else [s[0]]) + Without(s[1..], k)
  }

  /** In a list without repetitions, dropping `k` removes exactly the
      position where `k` stands, and no repetition appears. */
  lemma {:induction false} WithoutAt(s: seq<string>, k: string, i: nat)
    requires Distinct(s) && i < |s| && s[i] == k
    ensures Without(s, k) == s[..i] + s[i + 1..]
    ensures Distinct(Without(s, k))
  {
    if i == 0 {
      NotInWithout(s[1..], k);
    } else {
      WithoutAt(s[1..], k, i - 1);
      assert s[1..][..i - 1] + s[1..][i..] == s[1..i] + s[i + 1..];
      assert [s[0]] + s[1..i] == s[..i];
    }
  }

  lemma {:induction false} NotInWithout(s: seq<string>, k: string)
    requires Distinct(s) && k !in s
    ensures Without(s, k) == s
  {
    if s != [] {
      NotInWithout(s[1..], k);
    }
  }
}
