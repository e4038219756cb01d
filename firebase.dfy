/** `Database.get_key_value_pair` of src/subsystems/sys_firebase.py. A
    mapping read from the database is given as its (key, value) pairs in
    iteration order, with distinct keys. Since the function only reads, and
    Dafny values are immutable, the mapping is unchanged by construction. */
module Firebase {
  import opened Wrappers

  /** `[data[key], key]` for the first key whose value equals the target, or
      None when no value does. */
  function GetKeyValuePair<K, V(==)>(data: seq<(K, V)>, target: V): (r: Option<(V, K)>)
    ensures r.None? <==> forall i :: 0 <= i < |data| ==> data[i].1 != target
    ensures r.Some? ==> r.value.0 == target
    ensures r.Some? ==> exists i :: 0 <= i < |data| && data[i] == (r.value.1, r.value.0)
                                  && forall j :: 0 <= j < i ==> data[j].1 != target
    decreases |data|
  {
    if |data| == 0 then None
    else if data[0].1 == target then Some((data[0].1, data[0].0))
    else
      var r := GetKeyValuePair(data[1..], target);
      assert forall i :: 1 <= i < |data| ==> data[i] == data[1..][i - 1];
      if r.Some? then
        ghost var i :| 0 <= i < |data[1..]| && data[1..][i] == (r.value.1, r.value.0)
                       && forall j :: 0 <= j < i ==> data[1..][j].1 != target;
        assert data[i + 1] == (r.value.1, r.value.0);
        r
      else r
  }

  /** With distinct keys the pair found is the only pair at that key, so the
      value stored under the returned key is the target. */
  lemma {:induction false} FoundKeyHoldsTarget<K, V>(data: seq<(K, V)>, target: V)
    requires forall i, j :: 0 <= i < j < |data| ==> data[i].0 != data[j].0
    requires GetKeyValuePair(data, target).Some?
    ensures forall i :: 0 <= i < |data| && data[i].0 == GetKeyValuePair(data, target).value.1
              ==> data[i].1 == target
  {
    var r := GetKeyValuePair(data, target).value;
    var k :| 0 <= k < |data| && data[k] == (r.1, r.0);
    assert data[k].1 == target;
  }

  /** An empty mapping never holds the target. */
  lemma EmptyHasNoPair<K, V>(target: V)
    ensures GetKeyValuePair<K, V>([], target) == None
  {
  }
}
