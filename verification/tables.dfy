/**
 Association tables: a sequence of (key, value) pairs searched front to back,
 which is how a PHP `switch` over string cases selects its branch.
 */
module Tables {
  import opened Wrappers

  /** The value of the first entry whose key is `key`, if any. */
  function Lookup<K(==), V>(table: seq<(K, V)>, key: K): (r: Option<V>)
    ensures r.None? <==> forall i :: 0 <= i < |table| ==> table[i].0 != key
    ensures r.Some? ==>
              exists i :: 0 <= i < |table| && table[i] == (key, r.value) &&
                          forall j :: 0 <= j < i ==> table[j].0 != key
  {
    if table == [] then None
    else if table[0].0 == key then Some(table[0].1)
    else
      var rest := Lookup(table[1..], key);
      assert forall i :: 1 <= i < |table| ==> table[i] == table[1..][i - 1];
      rest
  }

  /** No key occurs twice. */
  predicate DistinctKeys<K(==), V>(table: seq<(K, V)>)
  {
    forall i, j :: 0 <= i < j < |table| ==> table[i].0 != table[j].0
  }

  /** The table read backwards: each value becomes the key of its own key. */
  function Swapped<K, V>(table: seq<(K, V)>): (r: seq<(V, K)>)
    ensures |r| == |table|
    ensures forall i :: 0 <= i < |table| ==> r[i] == (table[i].1, table[i].0)
  {
    seq(|table|, i requires 0 <= i < |table| => (table[i].1, table[i].0))
  }

  /** With distinct keys, every entry is the one found for its key. */
  lemma LookupFindsEntry<K, V>(table: seq<(K, V)>, i: nat)
    requires DistinctKeys(table)
    requires i < |table|
    ensures Lookup(table, table[i].0) == Some(table[i].1)
  {
    var r := Lookup(table, table[i].0);
    var k :| 0 <= k < |table| && table[k] == (table[i].0, r.value) &&
             forall j :: 0 <= j < k ==> table[j].0 != table[i].0;
    assert k == i;
  }

  /**
   Looking a value up in the swapped table gives back its key, provided no
   value occurs twice.
   */
  lemma SwappedLookupInverts<K, V>(table: seq<(K, V)>, key: K)
    requires DistinctKeys(Swapped(table))
    requires Lookup(table, key).Some?
    ensures Lookup(Swapped(table), Lookup(table, key).value) == Some(key)
  {
    var value := Lookup(table, key).value;
    var i :| 0 <= i < |table| && table[i] == (key, value) &&
             forall j :: 0 <= j < i ==> table[j].0 != key;
    LookupFindsEntry(Swapped(table), i);
  }
}
