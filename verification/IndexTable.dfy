/** Open-addressing tables whose slots hold an index plus one into a list
    (0: empty), the list's elements carrying the keys. */
module IndexTable {
  import opened Common
  import opened Probing

  ghost function SlotKey<K>(s: nat, keys: seq<K>): Option<K> {
    if 1 <= s <= |keys| then Some(keys[s - 1]) else None
  }

  ghost function KeysOf<K>(slots: seq<nat>, keys: seq<K>): (ks: seq<Option<K>>)
    ensures |ks| == |slots| && forall i :: 0 <= i < |ks| ==> ks[i] == SlotKey(slots[i], keys)
  {
    seq(|slots|, i requires 0 <= i < |slots| => SlotKey(slots[i], keys))
  }

  ghost predicate InRange(slots: seq<nat>, n: nat) {
    forall i :: 0 <= i < |slots| ==> slots[i] <= n
  }

  /** The table leads from each key to its place in the list. */
  ghost predicate Leads<K(!new)>(slots: seq<nat>, keys: seq<K>, hash: K -> nat, at: map<K, nat>) {
    && Probed(KeysOf(slots, keys), hash, at)
    && |at| == |keys|
    && InRange(slots, |keys|)
    && (forall e :: 0 <= e < |keys| ==> keys[e] in at && at[keys[e]] < |slots| && slots[at[keys[e]]] == e + 1)
  }

  ghost predicate Once<K>(keys: seq<K>) {
    forall i, j :: 0 <= i < j < |keys| ==> keys[i] != keys[j]
  }

  lemma LeadsNone<K(!new)>(slots: seq<nat>, hash: K -> nat)
    requires IsPow2(|slots|) && forall i :: 0 <= i < |slots| ==> slots[i] == 0
    ensures Leads(slots, [], hash, map[])
  {
    ProbedNone(KeysOf<K>(slots, []), hash);
  }

  lemma LeadsRoom<K(!new)>(slots: seq<nat>, keys: seq<K>, hash: K -> nat, at: map<K, nat>)
    requires Leads(slots, keys, hash, at) && |keys| < |slots|
    ensures IsPow2(|slots|) && Taken(KeysOf(slots, keys)) < |slots| && InRange(slots, |keys|)
  {
  }

  /** An empty slot at the end of the run for `k` means `k` is not listed. */
  lemma LeadsAbsent<K(!new)>(slots: seq<nat>, keys: seq<K>, hash: K -> nat, at: map<K, nat>, k: K, i: nat)
    requires Leads(slots, keys, hash, at) && Walked(KeysOf(slots, keys), hash, k, i)
    requires i < |slots| && slots[i] == 0
    ensures k !in keys
  {
    Absent(KeysOf(slots, keys), hash, at, k, i);
  }

  lemma LeadsOnce<K(!new)>(slots: seq<nat>, keys: seq<K>, hash: K -> nat, at: map<K, nat>)
    requires Leads(slots, keys, hash, at)
    ensures Once(keys) && IsPow2(|slots|)
  {
  }

  /** A new key, its index in the empty slot its walk ends at. */
  lemma LeadsPush<K(!new)>(slots: seq<nat>, keys: seq<K>, hash: K -> nat, at: map<K, nat>, k: K, i: nat)
    requires Leads(slots, keys, hash, at) && Walked(KeysOf(slots, keys), hash, k, i)
    requires i < |slots| && slots[i] == 0
    ensures Leads(slots[i := |keys| + 1], keys + [k], hash, at[k := i])
  {
    hide Walked, Probed;
    Place(KeysOf(slots, keys), hash, at, k, i);
    assert KeysOf(slots[i := |keys| + 1], keys + [k]) == KeysOf(slots, keys)[i := Some(k)];
    var us, ks := slots[i := |keys| + 1], keys + [k];
    forall x | 0 <= x < |ks|
      ensures ks[x] in at[k := i] && at[k := i][ks[x]] < |us| && us[at[k := i][ks[x]]] == x + 1
    {
      if x < |keys| {
        assert ks[x] == keys[x];
      }
    }
  }

  /** One step past a slot that leads elsewhere. */
  lemma Pass<K(!new)>(slots: seq<nat>, keys: seq<K>, hash: K -> nat, k: K, i: nat)
    requires IsPow2(|slots|) && Taken(KeysOf(slots, keys)) < |slots| && InRange(slots, |keys|)
    requires Walked(KeysOf(slots, keys), hash, k, i) && i < |slots| && slots[i] != 0 && keys[slots[i] - 1] != k
    ensures Walked(KeysOf(slots, keys), hash, k, Next(i, |slots|))
    ensures Dist(Home(hash, k, |slots|), Next(i, |slots|), |slots|) == Dist(Home(hash, k, |slots|), i, |slots|) + 1
  {
    SomeFree(KeysOf(slots, keys));
    Advance(KeysOf(slots, keys), hash, k, i);
  }
}
