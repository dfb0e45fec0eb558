/**
 * The replacement map the engine receives and extends (Map<String, String>):
 * its entries in iteration order, with distinct keys. put overwrites the value
 * of a present key where it stands and adds a new key at the end.
 */
module ReplaceMaps {
  import opened Wrappers
  import opened Placeholders

  predicate DistinctKeys(entries: Entries) {
    forall i, j :: 0 <= i < j < |entries| ==> entries[i].0 != entries[j].0
  }

  /** Map.get: the value stored under `key`, or None. */
  function Lookup(entries: Entries, key: string): (r: Option<string>)
    ensures r.Some? <==> exists i :: 0 <= i < |entries| && entries[i].0 == key
  {
    if entries == [] then None
    else if entries[0].0 == key then Some(entries[0].1)
    else
      var rest := Lookup(entries[1..], key);
      assert rest.Some? ==> exists i :: 0 <= i < |entries| && entries[i].0 == key by {
        if rest.Some? {
          var i :| 0 <= i < |entries[1..]| && entries[1..][i].0 == key;
          assert entries[i + 1].0 == key;
        }
      }
      rest
  }

  /** Index of `key` among the entries, or |entries| when it is absent. */
  function KeyIndex(entries: Entries, key: string): (n: nat)
    ensures n <= |entries|
    ensures n < |entries| ==> entries[n].0 == key
    ensures forall i :: 0 <= i < n ==> entries[i].0 != key
  {
    if entries == [] then 0
    else if entries[0].0 == key then 0
    else 1 + KeyIndex(entries[1..], key)
  }

  /** The entries after put(key, value). */
  function PutEntry(entries: Entries, key: string, value: string): (r: Entries)
    ensures |r| == if KeyIndex(entries, key) < |entries| then |entries| else |entries| + 1
  {
    var n := KeyIndex(entries, key);
    if n < |entries| then entries[n := (key, value)] else entries + [(key, value)]
  }

  /** After put, the key maps to the new value and every other key keeps its value. */
  lemma PutThenLookup(entries: Entries, key: string, value: string, other: string)
    requires DistinctKeys(entries)
    ensures Lookup(PutEntry(entries, key, value), key) == Some(value)
    ensures other != key ==> Lookup(PutEntry(entries, key, value), other) == Lookup(entries, other)
  {
    var r := PutEntry(entries, key, value);
    var n := KeyIndex(entries, key);
    PutKeepsDistinct(entries, key, value);
    assert r[n] == (key, value);
    LookupAt(r, n);
    if other != key {
      if i :| 0 <= i < |entries| && entries[i].0 == other {
        assert r[i] == entries[i];
        LookupAt(entries, i);
        LookupAt(r, i);
      } else {
        forall i | 0 <= i < |r| ensures r[i].0 != other {
          if i < |entries| && i != n {
            assert r[i] == entries[i];
          }
        }
      }
    }
  }

  /** Put keeps the keys distinct. */
  lemma PutKeepsDistinct(entries: Entries, key: string, value: string)
    requires DistinctKeys(entries)
    ensures DistinctKeys(PutEntry(entries, key, value))
  {
    var r := PutEntry(entries, key, value);
    var n := KeyIndex(entries, key);
    forall i, j | 0 <= i < j < |r| ensures r[i].0 != r[j].0 {
      if n == |entries| && j == |entries| {
        assert r[i] == entries[i];
      }
    }
  }

  /** With distinct keys, the lookup of the key stored at `n` is its value. */
  lemma {:induction false} LookupAt(entries: Entries, n: nat)
    requires n < |entries| && DistinctKeys(entries)
    ensures Lookup(entries, entries[n].0) == Some(entries[n].1)
    decreases n
  {
    if n > 0 {
      assert entries[0].0 != entries[n].0;
      var rest := entries[1..];
      assert rest[n - 1] == entries[n];
      assert DistinctKeys(rest) by {
        forall i, j | 0 <= i < j < |rest| ensures rest[i].0 != rest[j].0 {
          assert rest[i] == entries[i + 1] && rest[j] == entries[j + 1];
        }
      }
      LookupAt(rest, n - 1);
    }
  }

  /** A HashMap<String, String> as the engine sees it. */
  class ReplaceMap {
    var entries: Entries

    constructor (initial: Entries)
      requires DistinctKeys(initial)
      ensures entries == initial
    {
      entries := initial;
    }

    function Get(key: string): Option<string>
      reads this
    {
      Lookup(entries, key)
    }

    /** put(key, value): overwrite in place or append. */
    method Put(key: string, value: string)
      requires DistinctKeys(entries)
      modifies this
      ensures entries == PutEntry(old(entries), key, value)
      ensures DistinctKeys(entries)
      ensures Get(key) == Some(value)
      ensures forall other :: other != key ==> Get(other) == old(Get(other))
    {
      var i := 0;
      while i < |entries| && entries[i].0 != key
        invariant 0 <= i <= |entries|
        invariant forall j :: 0 <= j < i ==> entries[j].0 != key
      {
        i := i + 1;
      }
      assert i == KeyIndex(entries, key) by {
        KeyIndexIsFirst(entries, key, i);
      }
      ghost var before := entries;
      if i < |entries| {
        entries := entries[i := (key, value)];
      } else {
        entries := entries + [(key, value)];
      }
      PutKeepsDistinct(before, key, value);
      forall other | true ensures other != key ==> Get(other) == Lookup(before, other) {
        PutThenLookup(before, key, value, other);
      }
      PutThenLookup(before, key, value, key);
    }
  }

  /** The first index holding `key` (or the end) is KeyIndex. */
  lemma {:induction false} KeyIndexIsFirst(entries: Entries, key: string, i: nat)
    requires i <= |entries|
    requires i < |entries| ==> entries[i].0 == key
    requires forall j :: 0 <= j < i ==> entries[j].0 != key
    ensures KeyIndex(entries, key) == i
    decreases i
  {
    if i > 0 {
      assert entries[0].0 != key;
      var rest := entries[1..];
      forall j | 0 <= j < i - 1 ensures rest[j].0 != key {
        assert rest[j] == entries[j + 1];
      }
      KeyIndexIsFirst(rest, key, i - 1);
    }
  }
}
