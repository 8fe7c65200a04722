/** Lookup in a string-keyed table written as an object literal, whose
    entries keep their insertion order. */
module Tables {

  datatype Option<T> = None | Some(value: T)

  /** `table[key]`: the value of the entry with that key, if there is one. When a key is
      written twice in an object literal the later definition wins, so this is the value
      of the last entry with the key. */
  function Lookup<V>(table: seq<(string, V)>, key: string): (r: Option<V>)
    ensures r.None? <==> forall k :: 0 <= k < |table| ==> table[k].0 != key
    ensures r.Some? ==> exists k :: 0 <= k < |table| && table[k].0 == key && table[k].1 == r.value
                                    && forall j :: k < j < |table| ==> table[j].0 != key
  {
    if table == [] then None
    else if table[|table| - 1].0 == key then Some(table[|table| - 1].1)
    else
      var r := Lookup(table[..|table| - 1], key);
      assert forall k :: 0 <= k < |table| - 1 ==> table[..|table| - 1][k] == table[k];
      r
  }
}
