/** The prompt lookup drafter's table: an n-gram's 64-bit key to where the
    n-gram occurred first and last, linear probing, at most half full. */
module LookupTable {
  import opened Common
  import opened Probing

  const U32 := 0x1_0000_0000
  const U64 := 0x1_0000_0000_0000_0000

  type Key = k: nat | k < U64

  /** One slot; key 0 marks it empty. */
  datatype Slot = Slot(key: Key, first: nat, last: nat)

  const EMPTY := Slot(0, 0, 0)
  const FIRST_SIZE := 1024

  function KeyHash(k: Key): nat { k }

  ghost function SlotKey(s: Slot): Option<Key> {
    if s.key == 0 then None else Some(s.key)
  }

  ghost function KeysOf(slots: seq<Slot>): (ks: seq<Option<Key>>)
    ensures |ks| == |slots| && forall i :: 0 <= i < |ks| ==> ks[i] == SlotKey(slots[i])
  {
    seq(|slots|, i requires 0 <= i < |slots| => SlotKey(slots[i]))
  }

  /** What noting `key` at `at` does to the map. */
  ghost function Noted(view: map<Key, Slot>, key: Key, at: nat): map<Key, Slot> {
    view[key := if key in view then view[key].(last := at) else Slot(key, at, at)]
  }

  /** The probe loop: the slot that holds `key`, or the empty slot that
      ends its run. */
  method Walk(slots: seq<Slot>, key: Key) returns (i: nat)
    requires key != 0 && IsPow2(|slots|) && Taken(KeysOf(slots)) < |slots|
    ensures Walked(KeysOf(slots), KeyHash, key, i)
    ensures i < |slots| && (slots[i].key == key || slots[i].key == 0)
  {
    ghost var ks := KeysOf(slots);
    SomeFree(ks);
    i := Home(KeyHash, key, |slots|);
    while slots[i].key != key && slots[i].key != 0
      invariant Walked(ks, KeyHash, key, i)
      decreases |ks| - Dist(Home(KeyHash, key, |ks|), i, |ks|)
    {
      Advance(ks, KeyHash, key, i);
      i := Next(i, |slots|);
    }
  }

  /** The slots' keys sit where `at` says. */
  ghost predicate Holds(slots: seq<Slot>, at: map<Key, nat>) {
    Probed(KeysOf(slots), KeyHash, at)
  }

  /** What the slots hold, key by key. */
  ghost function ViewOf(slots: seq<Slot>, at: map<Key, nat>): map<Key, Slot> {
    map k | k in at && at[k] < |slots| :: slots[at[k]]
  }

  lemma PutView(slots: seq<Slot>, at: map<Key, nat>, i: nat, s: Slot)
    requires Holds(slots, at) && i < |slots| && slots[i].key == 0 && s.key !in at
    ensures ViewOf(slots[i := s], at[s.key := i]) == ViewOf(slots, at)[s.key := s]
  {
    assert KeysOf(slots)[i].None?;
  }

  /** A new key in the empty slot its walk ends at. */
  lemma PutNew(slots: seq<Slot>, at: map<Key, nat>, i: nat, s: Slot)
    requires Holds(slots, at) && s.key != 0
    requires Walked(KeysOf(slots), KeyHash, s.key, i) && i < |slots| && slots[i].key == 0
    ensures s.key !in at && s.key !in ViewOf(slots, at)
    ensures Holds(slots[i := s], at[s.key := i])
    ensures ViewOf(slots[i := s], at[s.key := i]) == ViewOf(slots, at)[s.key := s]
  {
    hide Probed, Walked;
    Place(KeysOf(slots), KeyHash, at, s.key, i);
    assert KeysOf(slots[i := s]) == KeysOf(slots)[i := SlotKey(s)];
    PutView(slots, at, i, s);
  }

  /** Another payload for a key that is there. */
  lemma PutSame(slots: seq<Slot>, at: map<Key, nat>, i: nat, s: Slot)
    requires Holds(slots, at) && s.key != 0 && i < |slots| && slots[i].key == s.key
    ensures s.key in ViewOf(slots, at) && ViewOf(slots, at)[s.key] == slots[i]
    ensures Holds(slots[i := s], at)
    ensures ViewOf(slots[i := s], at) == ViewOf(slots, at)[s.key := s]
  {
    assert KeysOf(slots)[i] == Some(s.key);
    assert KeysOf(slots[i := s]) == KeysOf(slots);
  }

  lemma HoldsNone(slots: seq<Slot>)
    requires IsPow2(|slots|) && forall i :: 0 <= i < |slots| ==> slots[i] == EMPTY
    ensures Holds(slots, map[]) && ViewOf(slots, map[]) == map[]
  {
    ProbedNone(KeysOf(slots), KeyHash);
  }

  /** The keys of the first `e` slots, each with its slot. */
  ghost function Part(slots: seq<Slot>, at: map<Key, nat>, e: nat): map<Key, Slot> {
    map k | k in at && at[k] < |slots| && at[k] < e :: slots[at[k]]
  }

  lemma PartNext(slots: seq<Slot>, at: map<Key, nat>, e: nat)
    requires Holds(slots, at) && e < |slots|
    ensures Part(slots, at, e + 1) ==
            if slots[e].key == 0 then Part(slots, at, e) else Part(slots, at, e)[slots[e].key := slots[e]]
    ensures slots[e].key != 0 ==> slots[e].key !in Part(slots, at, e)
  {
    assert KeysOf(slots)[e] == SlotKey(slots[e]);
    forall k | k in at && at[k] == e
      ensures slots[e].key == k
    {
      assert KeysOf(slots)[at[k]] == Some(k);
    }
  }

  lemma ViewSize(slots: seq<Slot>, at: map<Key, nat>)
    requires Holds(slots, at)
    ensures |ViewOf(slots, at)| == |at|
  {
    assert ViewOf(slots, at).Keys == at.Keys;
  }

  lemma PartEnds(slots: seq<Slot>, at: map<Key, nat>)
    requires Holds(slots, at)
    ensures Part(slots, at, 0) == map[] && Part(slots, at, |slots|) == ViewOf(slots, at)
    ensures IsPow2(|slots|)
  {
  }

  lemma Room(slots: seq<Slot>, at: map<Key, nat>)
    requires Holds(slots, at) && |at| < |slots|
    ensures IsPow2(|slots|) && Taken(KeysOf(slots)) < |slots|
  {
  }

  class Table {
    var slots: seq<Slot>
    var used: nat
    /** Where each key sits. */
    ghost var at: map<Key, nat>

    ghost predicate Valid()
      reads this
    {
      Holds(slots, at) && used == |at| && used * 2 <= |slots| && |slots| > 0
    }

    ghost function View(): map<Key, Slot>
      reads this
    {
      ViewOf(slots, at)
    }

    constructor ()
      ensures Valid() && View() == map[]
    {
      slots := seq(FIRST_SIZE, _ => EMPTY);
      used := 0;
      at := map[];
      new;
      assert FIRST_SIZE == Pow2(10);
      HoldsNone(slots);
    }

    method Find(key: Key) returns (r: Option<Slot>)
      requires Valid() && key != 0
      ensures r == if key in View() then Some(View()[key]) else None
    {
      var i := Walk(slots, key);
      if slots[i].key == key {
        PutSame(slots, at, i, slots[i]);
        return Some(slots[i]);
      }
      Absent(KeysOf(slots), KeyHash, at, key, i);
      return None;
    }

    /** `key` was seen at `pos`: a new entry, or a later last occurrence. */
    method Note(key: Key, pos: nat)
      requires Valid() && key != 0
      modifies this
      ensures Valid()
      ensures View() == Noted(old(View()), key, pos)
    {
      hide Holds, ViewOf, Walked;
      if (used + 1) * 2 > |slots| {
        Grow();
      }
      Room(slots, at);
      var i := Walk(slots, key);
      if slots[i].key == key {
        PutSame(slots, at, i, slots[i].(last := pos));
        slots := slots[i := slots[i].(last := pos)];
      } else {
        PutNew(slots, at, i, Slot(key, pos, pos));
        slots := slots[i := Slot(key, pos, pos)];
        used := used + 1;
        at := at[key := i];
      }
    }

    /** Twice the slots, every entry rehashed; what is held does not change. */
    method Grow()
      requires Valid()
      modifies this`slots, this`at
      ensures Valid() && |slots| == 2 * old(|slots|) && View() == old(View())
    {
      hide Holds, ViewOf, Walked;
      var before := slots;
      slots := seq(2 * |before|, _ => EMPTY);
      PartEnds(before, at);
      DoublePow2(|before|);
      HoldsNone(slots);
      ghost var moved: map<Key, nat> := map[];
      var e := 0;
      while e < |before|
        invariant e <= |before| && |slots| == 2 * |before| && at == old(at)
        invariant Holds(slots, moved) && |moved| <= e
        invariant ViewOf(slots, moved) == Part(before, at, e)
      {
        PartNext(before, at, e);
        var s := before[e];
        if s.key != 0 {
          Room(slots, moved);
          var i := Walk(slots, s.key);
          if slots[i].key == s.key {
            PutSame(slots, moved, i, s);
            assert false;
          }
          PutNew(slots, moved, i, s);
          slots := slots[i := s];
          moved := moved[s.key := i];
        }
        e := e + 1;
      }
      ViewSize(before, at);
      ViewSize(slots, moved);
      at := moved;
    }
  }
}
