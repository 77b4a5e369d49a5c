// The registry object (src/cloud/registry.ts) over its two stores, called without a crash in between. Its
// state is always that of a run of the machine in CloudRegistry, so what holds of every run holds of it,
// over any number of calls; the outcome of each write is given to the call.

module CloudStore {
  import opened Options
  import opened Text
  import opened CloudRecords
  import opened ApiKeys
  import opened CloudRegistry
  import opened CloudTheorems

  lemma {:induction false} RunSnoc(s: State, acts: seq<Action>, a: Action)
    ensures Exec(s, acts + [a]) == Next(Exec(s, acts), a)
    ensures Approvals(s, acts + [a]) == Approvals(s, acts) + ApprovedNow(Exec(s, acts), a)
    decreases |acts|
  {
    if acts == [] {
      assert acts + [a] == [a] && [a][1..] == [];
      assert Exec(Next(s, a), []) == Next(s, a) && Approvals(Next(s, a), []) == {};
    } else {
      assert (acts + [a])[1..] == acts[1..] + [a];
      RunSnoc(Next(s, acts[0]), acts[1..], a);
    }
  }

  /** The run goes on from `acts` to `more`, ends in `s'`, and approves nothing but `approved` on the way. */
  ghost predicate GoesOn(s0: State, acts: seq<Action>, more: seq<Action>, s': State, approved: set<Approval>) {
    acts <= more && Exec(s0, more) == s' && Approvals(s0, more) == Approvals(s0, acts) + approved
  }

  /** The run so far, one action longer. */
  lemma Then(s0: State, acts: seq<Action>, s: State, a: Action, s': State) returns (more: seq<Action>)
    requires Exec(s0, acts) == s && Next(s, a) == s'
    ensures GoesOn(s0, acts, more, s', ApprovedNow(s, a))
  {
    RunSnoc(s0, acts, a);
    more := acts + [a];
  }

  /** One action in the middle of a mutation approves nothing. */
  lemma AndThen(s0: State, acts: seq<Action>, more: seq<Action>, s: State, a: Action, s': State, approved: set<Approval>)
    returns (more': seq<Action>)
    requires GoesOn(s0, acts, more, s, approved) && Next(s, a) == s' && !s.stage.Idle?
    ensures GoesOn(s0, acts, more', s', approved)
  {
    more' := Then(s0, more, s, a, s');
  }

  /** What an operation approves when it begins on these credentials. */
  function ApprovedBy(op: Op, keys: Keys): set<Approval> {
    if op.Upsert? && KeyFor(op.input, keys).Some?
    then {Approval(Trim(op.input.provider), KeyFor(op.input, keys).value, ConfigOf(Proposed(op.input)))} else {}
  }

  /** Nothing is under way and the documents are these. */
  function At(keys: Keys, list: seq<Raw>): State {
    Opened(keys, list)
  }

  /** The mutation is called and begins. */
  lemma Begins(s0: State, acts: seq<Action>, keys: Keys, list: seq<Raw>, op: Op, now: string) returns (more: seq<Action>)
    requires Exec(s0, acts) == At(keys, list) && GoodOp(op)
    ensures var plan := PlanFor(At(keys, list), op, now);
      GoesOn(s0, acts, more, At(keys, list).(stage := if plan.newKeys == keys then KeysDone(plan) else WritingKeys(plan)),
             ApprovedBy(op, keys))
  {
    var called := At(keys, list).(queue := [op]);
    var plan := PlanFor(At(keys, list), op, now);
    assert PlanFor(called, op, now) == plan && called.queue[1..] == [];
    more := Then(s0, acts, At(keys, list), Call(op), called);
    more := Then(s0, more, called, Step(true, now),
                 At(keys, list).(stage := if plan.newKeys == keys then KeysDone(plan) else WritingKeys(plan)));
  }

  /** The credentials of this plan are written and the settings come next. */
  function Halfway(plan: Plan): State {
    At(plan.newKeys, plan.list).(stage := KeysDone(plan))
  }

  /** The credentials are written. */
  lemma KeysSet(s0: State, acts: seq<Action>, keys: Keys, list: seq<Raw>, op: Op, now: string) returns (more: seq<Action>)
    requires Exec(s0, acts) == At(keys, list) && GoodOp(op)
    ensures GoesOn(s0, acts, more, Halfway(PlanFor(At(keys, list), op, now)), ApprovedBy(op, keys))
  {
    more := Begins(s0, acts, keys, list, op, now);
    var plan := PlanFor(At(keys, list), op, now);
    if plan.newKeys != keys {
      var writing := At(keys, list).(stage := WritingKeys(plan));
      var written := writing.(keysFile := plan.newKeys, stage := KeysWritten(plan));
      more := AndThen(s0, acts, more, writing, Step(true, now), written, ApprovedBy(op, keys));
      more := AndThen(s0, acts, more, written, Step(true, now), Halfway(plan), ApprovedBy(op, keys));
    }
  }

  /** They could not be: nothing has changed. */
  lemma KeysRefused(s0: State, acts: seq<Action>, keys: Keys, list: seq<Raw>, op: Op, now: string) returns (more: seq<Action>)
    requires Exec(s0, acts) == At(keys, list) && GoodOp(op) && PlanFor(At(keys, list), op, now).newKeys != keys
    ensures GoesOn(s0, acts, more, At(keys, list), ApprovedBy(op, keys))
  {
    more := Begins(s0, acts, keys, list, op, now);
    var plan := PlanFor(At(keys, list), op, now);
    more := AndThen(s0, acts, more, At(keys, list).(stage := WritingKeys(plan)), Step(false, now), At(keys, list), ApprovedBy(op, keys));
  }

  lemma SettingsSet(s0: State, acts: seq<Action>, run: seq<Action>, plan: Plan, now: string, approved: set<Approval>)
    returns (more: seq<Action>)
    requires GoesOn(s0, acts, run, Halfway(plan), approved)
    ensures GoesOn(s0, acts, more, At(plan.newKeys, plan.newList), approved)
  {
    if plan.newList == plan.list {
      more := AndThen(s0, acts, run, Halfway(plan), Step(true, now), At(plan.newKeys, plan.list), approved);
    } else {
      var writing := Halfway(plan).(list := plan.newList, stage := WritingSettings(plan));
      more := AndThen(s0, acts, run, Halfway(plan), Step(true, now), writing, approved);
      more := AndThen(s0, acts, more, writing, Step(true, now), At(plan.newKeys, plan.newList), approved);
    }
  }

  /** The settings could not be written. */
  lemma SettingsRefused(s0: State, acts: seq<Action>, run: seq<Action>, plan: Plan, now: string, approved: set<Approval>)
    returns (more: seq<Action>)
    requires GoesOn(s0, acts, run, Halfway(plan), approved) && plan.newList != plan.list
    ensures GoesOn(s0, acts, more, Halfway(plan).(stage := RollingBack(plan)), approved)
  {
    var writing := Halfway(plan).(list := plan.newList, stage := WritingSettings(plan));
    more := AndThen(s0, acts, run, Halfway(plan), Step(true, now), writing, approved);
    more := AndThen(s0, acts, more, writing, Step(false, now), Halfway(plan).(stage := RollingBack(plan)), approved);
  }

  /** What `restore` then writes is what was there before, if that write works. */
  lemma Restored(s0: State, acts: seq<Action>, run: seq<Action>, plan: Plan, now: string, ok: bool, approved: set<Approval>)
    returns (more: seq<Action>)
    requires GoesOn(s0, acts, run, Halfway(plan).(stage := RollingBack(plan)), approved) && PlanOk(plan)
    ensures GoesOn(s0, acts, more, At(if ok || plan.newKeys == plan.keys then plan.keys else plan.newKeys, plan.list), approved)
  {
    PlanRestores(plan);
    var back := Halfway(plan).(stage := RollingBack(plan));
    if plan.newKeys == plan.keys || !ok {
      more := AndThen(s0, acts, run, back, Step(ok, now), At(plan.newKeys, plan.list), approved);
    } else {
      var restored := back.(keysFile := plan.keys, stage := KeysRestored(plan));
      more := AndThen(s0, acts, run, back, Step(true, now), restored, approved);
      more := AndThen(s0, acts, more, restored, Step(true, now), At(plan.keys, plan.list), approved);
    }
  }

  /** A mutation that makes both writes. */
  lemma Committed(s0: State, acts: seq<Action>, keys: Keys, list: seq<Raw>, op: Op, now: string) returns (more: seq<Action>)
    requires Exec(s0, acts) == At(keys, list) && GoodOp(op)
    ensures var plan := PlanFor(At(keys, list), op, now);
      GoesOn(s0, acts, more, At(plan.newKeys, plan.newList), ApprovedBy(op, keys))
  {
    more := KeysSet(s0, acts, keys, list, op, now);
    more := SettingsSet(s0, acts, more, PlanFor(At(keys, list), op, now), now, ApprovedBy(op, keys));
  }

  /** A mutation whose settings write fails. */
  lemma RolledBack(s0: State, acts: seq<Action>, keys: Keys, list: seq<Raw>, op: Op, now: string, ok: bool)
    returns (more: seq<Action>)
    requires Exec(s0, acts) == At(keys, list) && GoodOp(op) && PlanFor(At(keys, list), op, now).newList != list
    ensures var plan := PlanFor(At(keys, list), op, now);
      GoesOn(s0, acts, more, At(if ok || plan.newKeys == keys then keys else plan.newKeys, list), ApprovedBy(op, keys))
  {
    var plan := PlanFor(At(keys, list), op, now);
    assert PlanOk(plan);
    more := KeysSet(s0, acts, keys, list, op, now);
    more := SettingsRefused(s0, acts, more, plan, now, ApprovedBy(op, keys));
    more := Restored(s0, acts, more, plan, now, ok, ApprovedBy(op, keys));
  }

  /**
   * What an upsert leaves: the provider replaced in the list, its key bound to the new configuration,
   * and, if there is a key, the provider routed with it to what the input spelled out.
   */
  ghost predicate Upserted(input: Input, now: string, keys: Keys, list: seq<Raw>, keys': Keys, list': seq<Raw>) {
    && Stored(list') == Replaced(Stored(list), NextProvider(input, Stored(list)))
    && keys' == KeysAfter(input, now, keys)
    && (KeyGiven(KeyFor(input, keys)) ==>
          var route := RouteOf(keys', Stored(list'), Trim(input.provider));
          && route.Some? && route.value.apiKey == KeyFor(input, keys)
          && route.value.config == ConfigOf(Proposed(input)))
  }

  /** The credentials with the key of this input bound to the configuration it spells out. */
  function KeysAfter(input: Input, now: string, keys: Keys): Keys {
    WithBoundKey(keys, Trim(input.provider), KeyFor(input, keys), Sha256(ConfigOf(Proposed(input))), now)
  }

  /** The configuration is the input's own: only media are carried over. */
  lemma NextIsProposed(input: Input, ps: seq<Provider>)
    ensures ConfigOf(NextProvider(input, ps)) == ConfigOf(Proposed(input)) && NextProvider(input, ps).name == Trim(input.provider)
  {
  }

  lemma PlanUpserts(input: Input, now: string, keys: Keys, list: seq<Raw>)
    requires Accepted(input)
    ensures var plan := PlanFor(At(keys, list), Op.Upsert(input), now);
      Upserted(input, now, keys, list, plan.newKeys, plan.newList)
  {
    var ps := Stored(list);
    NextIsProposed(input, ps);
    UpsertStores(input, list);
    if KeyGiven(KeyFor(input, keys)) {
      KeyedUpsertRoutes(keys, ps, NextProvider(input, ps), KeyFor(input, keys), now);
    }
  }

  /** Whether each write a mutation may need comes through. */
  datatype Writes = Writes(keys: bool, settings: bool, restore: bool)

  class CloudProviders {
    const keys: ApiKeyStore
    var list: seq<Raw>
    var listFile: seq<Raw>
    ghost const start: State
    /** The run of the machine this object has come through. */
    ghost var history: seq<Action>

    ghost predicate Valid()
      reads this, keys
    {
      && keys.Valid() && list == listFile
      && start == Opened(start.keys, start.list) && Exec(start, history) == At(keys.doc, list)
    }

    constructor (store: ApiKeyStore, loaded: seq<Raw>)
      requires store.Valid()
      ensures Valid() && keys == store && list == loaded && start == Opened(store.doc, loaded) && history == []
    {
      keys, list, listFile := store, loaded, loaded;
      start, history := Opened(store.doc, loaded), [];
    }

    /** `setCloudProviders`: in memory first, taken back if the write fails. */
    method SetList(next: seq<Raw>, persists: bool) returns (ok: bool)
      modifies this`list, this`listFile
      ensures ok <==> persists || next == old(list)
      ensures list == if ok then next else old(list)
      ensures listFile == if ok && next != old(list) then next else old(listFile)
    {
      if next == list {
        return true;
      }
      var previous := list;
      list := next;
      if !persists {
        list := previous;
        return false;
      }
      listFile := next;
      ok := true;
    }

    /** `upsert` */
    method Upsert(input: Input, now: string, writes: Writes) returns (ok: bool)
      requires Valid()
      modifies this`list, this`listFile, this`history, keys
      ensures Valid()
      ensures !Accepted(input) ==> !ok && keys.doc == old(keys.doc) && list == old(list) && history == old(history)
      ensures Accepted(input) ==>
        Approvals(start, history) == old(Approvals(start, history)) + ApprovedBy(Op.Upsert(input), old(keys.doc))
      ensures ok ==> Upserted(input, now, old(keys.doc), old(list), keys.doc, list)
      ensures !ok ==> list == old(list) && (writes.restore || !writes.keys ==> keys.doc == old(keys.doc))
      ensures !ok ==> keys.doc == old(keys.doc) || keys.doc == KeysAfter(input, now, old(keys.doc))
    {
      if !Accepted(input) {
        return false;
      }
      var ps := Stored(list);
      var next := NextProvider(input, ps);
      var oldKey := RecordOf(keys.doc, next.name);
      ghost var keys0, list0 := keys.doc, list;
      NextIsProposed(input, ps);
      RestoreUndoes(keys.doc, next.name, KeyFor(input, keys.doc), Sha256(ConfigOf(next)), now);
      var written := keys.SetBound(next.name, KeyFor(input, keys.doc), Sha256(ConfigOf(next)), now, writes.keys);
      if !written {
        history := KeysRefused(start, history, keys0, list0, Op.Upsert(input), now);
        return false;
      }
      ok := SetList(ListJson(Replaced(ps, next)), writes.settings);
      if ok {
        history := Committed(start, history, keys0, list0, Op.Upsert(input), now);
        PlanUpserts(input, now, keys0, list0);
      } else {
        var restored := keys.Restore(next.name, oldKey, writes.restore);
        history := RolledBack(start, history, keys0, list0, Op.Upsert(input), now, writes.restore);
      }
    }

    /** `remove` */
    method Remove(provider: string, now: string, writes: Writes) returns (ok: bool)
      requires Valid()
      modifies this`list, this`listFile, this`history, keys
      ensures Valid() && Approvals(start, history) == old(Approvals(start, history))
      ensures ok ==> keys.doc == old(keys.doc) - {provider} && Stored(list) == Without(Stored(old(list)), provider)
      ensures !ok ==> list == old(list) && (writes.restore || !writes.keys ==> keys.doc == old(keys.doc))
    {
      var kept := Without(Stored(list), provider);
      var oldKey := RecordOf(keys.doc, provider);
      var next := if |kept| == |Stored(list)| then list else ListJson(kept);
      ghost var keys0, list0 := keys.doc, list;
      RemoveStores(At(keys.doc, list), provider, now);
      RestoreUndoes(keys.doc, provider, None, OtherText(""), now);
      var written := keys.SetKey(provider, None, now, writes.keys);
      if !written {
        history := KeysRefused(start, history, keys0, list0, Op.Remove(provider), now);
        return false;
      }
      ok := SetList(next, writes.settings);
      if ok {
        history := Committed(start, history, keys0, list0, Op.Remove(provider), now);
      } else {
        var restored := keys.Restore(provider, oldKey, writes.restore);
        history := RolledBack(start, history, keys0, list0, Op.Remove(provider), now, writes.restore);
      }
    }

    /** `routing()`: after any calls, a bound key goes only where one of them approved it. */
    method Route(name: string) returns (remote: Option<Remote>)
      requires Valid()
      ensures remote == RouteOf(keys.doc, Stored(list), name)
      ensures remote.Some? && name in keys.doc && keys.doc[name].boundTo.Some? ==>
        && remote.value.apiKey == Some(keys.doc[name].apiKey)
        && Approval(name, keys.doc[name].apiKey, remote.value.config) in BoundIn(start.keys) + Approvals(start, history)
    {
      remote := RouteOf(keys.doc, Stored(list), name);
      if remote.Some? && name in keys.doc && keys.doc[name].boundTo.Some? {
        BoundKeysGoWhereApproved(start.keys, start.list, history, name);
      }
    }
  }
}
