// Pending loads and the cancel that reaches them (src/runtime/shared/load-cancel.ts). Loads waiting on
// one key share an entry; a cancelled entry is replaced, not joined, by the next load.

module LoadCancels {
  /** One abort controller and how many pending loads hold it. */
  datatype Entry = Entry(key: string, aborted: bool, holders: nat)

  /** What `register` gives out. */
  datatype Handle = Handle(key: string, entry: nat, released: bool)

  predicate Holds(h: Handle, entry: nat) {
    h.entry == entry && !h.released
  }

  /** How many handles on an entry were not released. */
  function Holders(handles: seq<Handle>, entry: nat): nat {
    if handles == [] then 0
    else Holders(handles[..|handles| - 1], entry) + (if Holds(handles[|handles| - 1], entry) then 1 else 0)
  }

  lemma HoldersAdded(handles: seq<Handle>, added: Handle, entry: nat)
    ensures Holders(handles + [added], entry) == Holders(handles, entry) + (if Holds(added, entry) then 1 else 0)
  {
    assert (handles + [added])[..|handles|] == handles;
  }

  lemma {:induction false} HoldersReleased(handles: seq<Handle>, h: nat, entry: nat)
    requires h < |handles| && !handles[h].released
    ensures Holders(handles[h := handles[h].(released := true)], entry)
         == Holders(handles, entry) - (if handles[h].entry == entry then 1 else 0)
  {
    var n := |handles| - 1;
    var after := handles[h := handles[h].(released := true)];
    if h < n {
      HoldersReleased(handles[..n], h, entry);
      assert after[..n] == handles[..n][h := handles[h].(released := true)];
    } else {
      assert after[..n] == handles[..n];
    }
  }

  lemma {:induction false} SomeHolder(handles: seq<Handle>, entry: nat) returns (h: nat)
    requires Holders(handles, entry) > 0
    ensures h < |handles| && Holds(handles[h], entry)
  {
    var n := |handles| - 1;
    if Holds(handles[n], entry) {
      h := n;
    } else {
      h := SomeHolder(handles[..n], entry);
    }
  }

  lemma {:induction false} HolderCounts(handles: seq<Handle>, entry: nat, h: nat)
    requires h < |handles| && Holds(handles[h], entry)
    ensures Holders(handles, entry) > 0
  {
    if h < |handles| - 1 {
      HolderCounts(handles[..|handles| - 1], entry, h);
    }
  }

  // --- what every state of the registry keeps --------------------------------------------------

  predicate Linked(loads: map<string, nat>, entries: seq<Entry>, handles: seq<Handle>) {
    && (forall h :: 0 <= h < |handles| ==>
          handles[h].entry < |entries| && entries[handles[h].entry].key == handles[h].key)
    && (forall k: string :: k in loads ==> loads[k] < |entries| && entries[loads[k]].key == k)
  }

  predicate Counted(entries: seq<Entry>, handles: seq<Handle>) {
    forall e :: 0 <= e < |entries| ==> entries[e].holders == Holders(handles, e)
  }

  /** Nothing stays in the map for a key nobody holds. */
  predicate InUse(loads: map<string, nat>, entries: seq<Entry>) {
    forall k: string :: k in loads ==> loads[k] < |entries| && entries[loads[k]].holders > 0
  }

  /** A load still pending is on the current entry of its key, or already cancelled. */
  predicate Reachable(loads: map<string, nat>, entries: seq<Entry>, handles: seq<Handle>) {
    forall h :: 0 <= h < |handles| && !handles[h].released && handles[h].entry < |entries| ==>
      entries[handles[h].entry].aborted || (handles[h].key in loads && loads[handles[h].key] == handles[h].entry)
  }

  predicate Consistent(loads: map<string, nat>, entries: seq<Entry>, handles: seq<Handle>) {
    Linked(loads, entries, handles) && Counted(entries, handles) && InUse(loads, entries) && Reachable(loads, entries, handles)
  }

  function Joined(entries: seq<Entry>, e: nat): seq<Entry>
    requires e < |entries|
  {
    entries[e := entries[e].(holders := entries[e].holders + 1)]
  }

  lemma JoinKeeps(loads: map<string, nat>, entries: seq<Entry>, handles: seq<Handle>, key: string)
    requires Consistent(loads, entries, handles) && key in loads
    ensures Consistent(loads, Joined(entries, loads[key]), handles + [Handle(key, loads[key], false)])
  {
    var e := loads[key];
    forall x | 0 <= x < |entries|
      ensures Joined(entries, e)[x].holders == Holders(handles + [Handle(key, e, false)], x)
    {
      HoldersAdded(handles, Handle(key, e, false), x);
    }
  }

  lemma FreshKeeps(loads: map<string, nat>, entries: seq<Entry>, handles: seq<Handle>, key: string)
    requires Consistent(loads, entries, handles) && (key in loads ==> entries[loads[key]].aborted)
    ensures Consistent(loads[key := |entries|], entries + [Entry(key, false, 1)], handles + [Handle(key, |entries|, false)])
  {
    FreshCounted(entries, handles, key);
  }

  lemma FreshCounted(entries: seq<Entry>, handles: seq<Handle>, key: string)
    requires Counted(entries, handles) && forall h :: 0 <= h < |handles| ==> handles[h].entry < |entries|
    ensures Counted(entries + [Entry(key, false, 1)], handles + [Handle(key, |entries|, false)])
  {
    var added := Handle(key, |entries|, false);
    if Holders(handles, |entries|) > 0 {
      var h := SomeHolder(handles, |entries|);
    }
    forall x | 0 <= x <= |entries|
      ensures (entries + [Entry(key, false, 1)])[x].holders == Holders(handles + [added], x)
    {
      HoldersAdded(handles, added, x);
    }
  }

  lemma ReleaseKeeps(loads: map<string, nat>, entries: seq<Entry>, handles: seq<Handle>, h: nat)
    requires Consistent(loads, entries, handles) && h < |handles| && !handles[h].released
    ensures var e, key := handles[h].entry, handles[h].key;
      && entries[e].holders > 0
      && (var entries' := entries[e := entries[e].(holders := entries[e].holders - 1)];
          var last := entries'[e].holders == 0 && key in loads && loads[key] == e;
          Consistent(if last then loads - {key} else loads, entries', handles[h := handles[h].(released := true)]))
  {
    var e := handles[h].entry;
    HolderCounts(handles, e, h);
    var entries' := entries[e := entries[e].(holders := entries[e].holders - 1)];
    var handles' := handles[h := handles[h].(released := true)];
    forall x | 0 <= x < |entries|
      ensures entries'[x].holders == Holders(handles', x)
    {
      HoldersReleased(handles, h, x);
    }
    forall i | 0 <= i < |handles'| && Holds(handles'[i], e)
      ensures entries'[e].holders > 0
    {
      HolderCounts(handles', e, i);
    }
  }

  class LoadCancelRegistry {
    var loads: map<string, nat>
    /** Every entry and handle ever made; `loads` holds the current entry of each key. */
    var entries: seq<Entry>
    var handles: seq<Handle>

    ghost predicate Valid()
      reads this
    {
      Consistent(loads, entries, handles)
    }

    /** `handle.signal.aborted` */
    ghost predicate Aborted(h: nat)
      requires Valid() && h < |handles|
      reads this
    {
      entries[handles[h].entry].aborted
    }

    constructor ()
      ensures Valid() && handles == [] && loads == map[]
    {
      loads, entries, handles := map[], [], [];
    }

    /** A new pending load starts clean and leaves every other load as it was. */
    method Register(key: string) returns (h: nat)
      requires Valid()
      modifies this
      ensures Valid() && h == |old(handles)| && |handles| == h + 1 && handles[..h] == old(handles)
      ensures handles[h].key == key && !handles[h].released && !Aborted(h)
      ensures forall i :: 0 <= i < h ==> Aborted(i) == old(Aborted(i))
    {
      h := |handles|;
      if key !in loads || entries[loads[key]].aborted {
        FreshKeeps(loads, entries, handles, key);
        handles := handles + [Handle(key, |entries|, false)];
        loads := loads[key := |entries|];
        entries := entries + [Entry(key, false, 1)];
      } else {
        JoinKeeps(loads, entries, handles, key);
        handles := handles + [Handle(key, loads[key], false)];
        entries := Joined(entries, loads[key]);
      }
    }

    /** A second call changes nothing; with the last handle on it, a current entry leaves the map. */
    method Release(h: nat)
      requires Valid() && h < |handles|
      modifies this
      ensures Valid() && handles == old(handles)[h := old(handles)[h].(released := true)]
      ensures forall i :: 0 <= i < |handles| ==> Aborted(i) == old(Aborted(i))
    {
      if handles[h].released {
        assert handles == handles[h := handles[h].(released := true)];
        return;
      }
      ReleaseKeeps(loads, entries, handles, h);
      var held, key := handles[h].entry, handles[h].key;
      handles := handles[h := handles[h].(released := true)];
      entries := entries[held := entries[held].(holders := entries[held].holders - 1)];
      if entries[held].holders == 0 && key in loads && loads[key] == held {
        loads := loads - {key};
      }
    }

    /**
     * Every load of the key still pending is cancelled afterwards and no load of another key is
     * touched; `false` means that nothing was in flight that was not cancelled already.
     */
    method Cancel(key: string) returns (found: bool)
      requires Valid()
      modifies this`entries
      ensures Valid()
      ensures forall i :: 0 <= i < |handles| && handles[i].key == key && !handles[i].released ==> Aborted(i)
      ensures forall i :: 0 <= i < |handles| && handles[i].key != key ==> Aborted(i) == old(Aborted(i))
      ensures forall i :: 0 <= i < |handles| && old(Aborted(i)) ==> Aborted(i)
      ensures !found ==> forall i :: 0 <= i < |handles| ==> Aborted(i) == old(Aborted(i))
      ensures found ==> exists i :: 0 <= i < |handles| && handles[i].key == key && !handles[i].released
    {
      if key !in loads {
        return false;
      }
      var e := loads[key];
      ghost var i := SomeHolder(handles, e);
      assert handles[i].key == key;
      entries := entries[e := entries[e].(aborted := true)];
      found := true;
    }
  }
}
