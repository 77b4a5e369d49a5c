// What holds of the cloud registry over every run: where keys are sent, what a mutation leaves behind
// and what the router sees of it.

module CloudTheorems {
  import opened Options
  import opened Text
  import opened CloudRecords
  import opened ApiKeys
  import opened CloudRegistry

  // --- a bound key goes only where an upsert approved it ---------------------------------------

  /** This key of this provider may be sent to this configuration. */
  datatype Approval = Approval(provider: string, key: string, config: Config)

  /** What the upsert that begins with this action approves: the configuration its input spells out. */
  function ApprovedNow(s: State, a: Action): set<Approval> {
    if a.Step? && s.stage.Idle? && s.queue != [] && s.queue[0].Upsert? && KeyFor(s.queue[0].input, s.keys).Some? then
      var input := s.queue[0].input;
      {Approval(Trim(input.provider), KeyFor(input, s.keys).value, ConfigOf(Proposed(input)))}
    else {}
  }

  function Approvals(s: State, acts: seq<Action>): set<Approval>
    decreases |acts|
  {
    if acts == [] then {} else ApprovedNow(s, acts[0]) + Approvals(Next(s, acts[0]), acts[1..])
  }

  /** The bindings the credentials file already held. */
  function BoundIn(keys: Keys): set<Approval> {
    set p: string | p in keys && keys[p].boundTo.Some? && keys[p].boundTo.value.Sha256?
      :: Approval(p, keys[p].apiKey, keys[p].boundTo.value.config)
  }

  predicate Covered(s: State, approved: set<Approval>) {
    && BoundIn(s.keys) <= approved && BoundIn(s.keysFile) <= approved
    && (!s.stage.Idle? ==> BoundIn(s.stage.plan.keys) <= approved && BoundIn(s.stage.plan.newKeys) <= approved)
  }

  lemma BeginCovered(s: State, now: string, ok: bool, approved: set<Approval>)
    requires s.stage.Idle? && Covered(s, approved)
    ensures Covered(Begin(s, now), approved + ApprovedNow(s, Step(ok, now)))
  {
    if s.queue != [] {
      var plan := PlanFor(s, s.queue[0], now);
      forall x | x in BoundIn(plan.newKeys)
        ensures x in approved + ApprovedNow(s, Step(ok, now))
      {
        if x !in BoundIn(s.keys) {
          assert plan.op.Upsert?;
          var input := plan.op.input;
          assert ConfigOf(NextProvider(input, Stored(s.list))) == ConfigOf(Proposed(input));
        }
      }
    }
  }

  lemma StepCovered(s: State, a: Action, approved: set<Approval>)
    requires Inv(s) && Covered(s, approved) && a.Step? && !s.stage.Idle?
    ensures Covered(Next(s, a), approved)
  {
    if s.stage.RollingBack? || s.stage.KeysRestored? {
      PlanRestores(s.stage.plan);
    }
  }

  lemma NextCovered(s: State, a: Action, approved: set<Approval>)
    requires Inv(s) && Covered(s, approved)
    ensures Covered(Next(s, a), approved + ApprovedNow(s, a))
  {
    if a.Step? && s.stage.Idle? {
      BeginCovered(s, a.now, a.ok, approved);
    } else if a.Step? {
      StepCovered(s, a, approved);
    }
  }

  lemma {:induction false} ExecCovered(s: State, acts: seq<Action>, approved: set<Approval>)
    requires Inv(s) && Covered(s, approved)
    ensures Covered(Exec(s, acts), approved + Approvals(s, acts))
    decreases |acts|
  {
    if acts == [] {
      assert approved + {} == approved;
    } else {
      NextOk(s, acts[0]);
      NextCovered(s, acts[0], approved);
      ExecCovered(Next(s, acts[0]), acts[1..], approved + ApprovedNow(s, acts[0]));
      assert approved + ApprovedNow(s, acts[0]) + Approvals(Next(s, acts[0]), acts[1..]) == approved + Approvals(s, acts);
    }
  }

  /** Every route comes from a record of its name. */
  lemma {:induction false} RoutingSound(keys: Keys, ps: seq<Provider>, name: string) returns (at: nat)
    requires name in Routing(keys, ps)
    ensures at < |ps| && ps[at].name == name && RemoteOf(keys, ps[at]) == Some(Routing(keys, ps)[name])
    decreases |ps|
  {
    var n := |ps| - 1;
    if ps[n].name == name && RemoteOf(keys, ps[n]).Some? {
      at := n;
    } else {
      at := RoutingSound(keys, ps[..n], name);
    }
  }

  /**
   * At every moment of every run, with any write failing and the process dying anywhere, a bound key
   * is routed only to a configuration it was bound to in the file the run started from, or that an
   * upsert of the run spelled out for it.
   */
  lemma BoundKeysGoWhereApproved(keys: Keys, list: seq<Raw>, acts: seq<Action>, name: string)
    requires var s := Exec(Opened(keys, list), acts);
      name in Routing(s.keys, Stored(s.list)) && name in s.keys && s.keys[name].boundTo.Some?
    ensures var s := Exec(Opened(keys, list), acts);
      var remote := Routing(s.keys, Stored(s.list))[name];
      && remote.apiKey == Some(s.keys[name].apiKey)
      && Approval(name, s.keys[name].apiKey, remote.config) in BoundIn(keys) + Approvals(Opened(keys, list), acts)
  {
    var s := Exec(Opened(keys, list), acts);
    ExecCovered(Opened(keys, list), acts, BoundIn(keys));
    var at := RoutingSound(s.keys, Stored(s.list), name);
    assert Approval(name, s.keys[name].apiKey, s.keys[name].boundTo.value.config) in BoundIn(s.keys);
  }

  /** An approval is an upsert that ran: with this key in its input, or keeping the key then stored. */
  lemma {:induction false} ApprovalIsAnUpsert(s: State, acts: seq<Action>, x: Approval) returns (at: nat)
    requires x in Approvals(s, acts)
    ensures at < |acts| && acts[at].Step?
    ensures var t := Exec(s, acts[..at]);
      && t.stage.Idle? && t.queue != [] && t.queue[0].Upsert?
      && (var input := t.queue[0].input;
          && Trim(input.provider) == x.provider && ConfigOf(Proposed(input)) == x.config
          && (input.apiKey == NewKey(x.key) ||
              (input.apiKey == KeepKey && x.provider in t.keys && t.keys[x.provider].apiKey == x.key)))
    decreases |acts|
  {
    if x in ApprovedNow(s, acts[0]) {
      at := 0;
      assert Exec(s, acts[..0]) == s;
    } else {
      var i := ApprovalIsAnUpsert(Next(s, acts[0]), acts[1..], x);
      at := i + 1;
      assert acts[..at][1..] == acts[1..][..i];
    }
  }

  // --- how a mutation ends ---------------------------------------------------------------------

  /** Memory and files hold exactly these documents. */
  predicate Holds(s: State, keys: Keys, list: seq<Raw>) {
    s.keys == s.keysFile == keys && s.list == s.listFile == list
  }

  /** This step ends the mutation with both writes made. */
  predicate Commits(s: State, a: Action) {
    && a.Step?
    && ((s.stage.KeysDone? && s.stage.plan.newList == s.list) || (s.stage.WritingSettings? && a.ok))
  }

  /**
   * A mutation that ends without a crash leaves both documents new or both as they were, except when
   * the settings write failed and the credentials write that was to undo the first failed too; and
   * that write is needed only if the key or its binding changed.
   */
  lemma MutationSettles(keys: Keys, list: seq<Raw>, acts: seq<Action>, a: Action)
    requires var s := Exec(Opened(keys, list), acts);
      !s.stage.Idle? && a.Step? && Next(s, a).stage.Idle?
    ensures var s := Exec(Opened(keys, list), acts);
      var s', plan := Next(s, a), s.stage.plan;
      && (Commits(s, a) ==> Holds(s', plan.newKeys, plan.newList))
      && (!Commits(s, a) ==>
            Holds(s', if s.stage.RollingBack? && !a.ok then plan.newKeys else plan.keys, plan.list))
  {
    var s := Exec(Opened(keys, list), acts);
    ExecOk(Opened(keys, list), acts);
    PlanRestores(s.stage.plan);
  }

  /** A failed settings write leaves everything as before exactly when `restore` worked or was not needed. */
  lemma RollbackIsExact(keys: Keys, list: seq<Raw>, acts: seq<Action>, ok: bool, now: string)
    requires Exec(Opened(keys, list), acts).stage.RollingBack?
    ensures var s := Exec(Opened(keys, list), acts);
      var plan, s1 := s.stage.plan, Next(s, Step(ok, now));
      var s2 := if s1.stage.Idle? then s1 else Next(s1, Step(ok, now));
      && s2.stage.Idle?
      && (Holds(s2, plan.keys, plan.list) <==> (ok || plan.newKeys == plan.keys))
  {
    var s := Exec(Opened(keys, list), acts);
    ExecOk(Opened(keys, list), acts);
    PlanRestores(s.stage.plan);
  }

  /** After a crash anywhere the settings never run ahead of the credentials. */
  lemma CrashLeaves(keys: Keys, list: seq<Raw>, acts: seq<Action>)
    requires !Exec(Opened(keys, list), acts).stage.Idle?
    ensures var s := Exec(Opened(keys, list), acts);
      var s', plan := Next(s, Crash), s.stage.plan;
      Holds(s', plan.keys, plan.list) || Holds(s', plan.newKeys, plan.list)
  {
    ExecOk(Opened(keys, list), acts);
  }

  // --- what the router sees of a committed mutation --------------------------------------------

  function RouteOf(keys: Keys, ps: seq<Provider>, name: string): Option<Remote> {
    var routes := Routing(keys, ps);
    if name in routes then Some(routes[name]) else None
  }

  /** The route of a name depends only on that name's key and records. */
  lemma {:induction false} RouteDependsOn(keys: Keys, keys': Keys, ps: seq<Provider>, ps': seq<Provider>, name: string)
    requires RecordOf(keys, name) == RecordOf(keys', name) && |ps| == |ps'|
    requires forall i :: 0 <= i < |ps| ==> (ps[i].name == name || ps'[i].name == name) ==> ps[i] == ps'[i]
    ensures RouteOf(keys, ps, name) == RouteOf(keys', ps', name)
    decreases |ps|
  {
    if ps != [] {
      var n := |ps| - 1;
      RouteDependsOn(keys, keys', ps[..n], ps'[..n], name);
      assert ps[n].name == name || ps'[n].name == name ==> ps[n] == ps'[n];
    }
  }

  /** The route of a name once another record follows. */
  lemma RouteMore(keys: Keys, ps: seq<Provider>, p: Provider, name: string)
    ensures RouteOf(keys, ps + [p], name) ==
      if p.name == name && RemoteOf(keys, p).Some? then RemoteOf(keys, p) else RouteOf(keys, ps, name)
  {
    Parts(ps, [p]);
  }

  lemma WithoutMore(ps: seq<Provider>, p: Provider, gone: string)
    ensures Without(ps + [p], gone) == if p.name == gone then Without(ps, gone) else Without(ps, gone) + [p]
  {
    Parts(ps, [p]);
  }

  lemma {:induction false} RouteWithout(keys: Keys, keys': Keys, ps: seq<Provider>, gone: string, name: string)
    requires RecordOf(keys, name) == RecordOf(keys', name)
    ensures RouteOf(keys', Without(ps, gone), name) == if name == gone then None else RouteOf(keys, ps, name)
    decreases |ps|
  {
    if ps != [] {
      var init, p := ps[..|ps| - 1], ps[|ps| - 1];
      InitLast(ps);
      RouteWithout(keys, keys', init, gone, name);
      WithoutMore(init, p, gone);
      RouteMore(keys, init, p, name);
      RouteMore(keys', Without(init, gone), p, name);
    }
  }

  /** Replacing one provider leaves every other route alone. */
  lemma RouteReplaced(keys: Keys, keys': Keys, ps: seq<Provider>, next: Provider, name: string)
    requires RecordOf(keys, name) == RecordOf(keys', name) && name != next.name
    ensures RouteOf(keys', Replaced(ps, next), name) == RouteOf(keys, ps, name)
  {
    var at := IndexOf(ps, next.name);
    if at < |ps| {
      RouteDependsOn(keys, keys', ps, ps[at := next], name);
    } else {
      RouteAppended(keys', ps, next, name);
      RouteDependsOn(keys, keys', ps, ps, name);
    }
  }

  lemma RouteAppended(keys: Keys, ps: seq<Provider>, next: Provider, name: string)
    requires name != next.name
    ensures RouteOf(keys, ps + [next], name) == RouteOf(keys, ps, name)
  {
    RouteMore(keys, ps, next, name);
  }

  /** With no key bound elsewhere, the last record of a name is the one routed. */
  lemma {:induction false} LastRecordWins(keys: Keys, ps: seq<Provider>, at: nat)
    requires at < |ps| && RemoteOf(keys, ps[at]).Some?
    requires forall i :: at < i < |ps| ==> ps[i].name == ps[at].name ==> RemoteOf(keys, ps[i]).None?
    ensures RouteOf(keys, ps, ps[at].name) == RemoteOf(keys, ps[at])
    decreases |ps|
  {
    var n := |ps| - 1;
    if at < n {
      LastRecordWins(keys, ps[..n], at);
      assert ps[n].name == ps[at].name ==> RemoteOf(keys, ps[n]).None?;
    }
  }

  /** A name is routed as soon as one of its records can be. */
  lemma {:induction false} SomeRecordRoutes(keys: Keys, ps: seq<Provider>, at: nat)
    requires at < |ps| && RemoteOf(keys, ps[at]).Some?
    ensures RouteOf(keys, ps, ps[at].name).Some?
    decreases |ps|
  {
    var n := |ps| - 1;
    if at < n {
      SomeRecordRoutes(keys, ps[..n], at);
    }
  }

  /** The last record of a name. */
  predicate LastNamed(ps: seq<Provider>, name: string, at: nat) {
    at < |ps| && ps[at].name == name && forall i :: at < i < |ps| ==> ps[i].name != name
  }

  predicate KeyGiven(key: Option<string>) {
    key.Some? && key.value != ""
  }

  /**
   * After a committed upsert the provider is routed with its key to the configuration of the input,
   * if a key is stored or its last record is of that configuration, and only then. (A settings file
   * may hold several records of one name; an upsert replaces the first and the router takes the last,
   * but a bound key shuts out every record of another configuration.)
   */
  lemma UpsertRoutes(keys: Keys, ps: seq<Provider>, next: Provider, key: Option<string>, now: string, last: nat)
    requires LastNamed(Replaced(ps, next), next.name, last)
    ensures var keys' := WithBoundKey(keys, next.name, key, Sha256(ConfigOf(next)), now);
      var ps' := Replaced(ps, next);
      var route := RouteOf(keys', ps', next.name);
      && route.Some? && route.value.apiKey == (if KeyGiven(key) then key else None)
      && (route.value.config == ConfigOf(next) <==> (KeyGiven(key) || ConfigOf(ps'[last]) == ConfigOf(next)))
      && (ps'[last] == next ==> route.value.media == next.media)
  {
    var keys' := WithBoundKey(keys, next.name, key, Sha256(ConfigOf(next)), now);
    var ps' := Replaced(ps, next);
    var at := IndexOf(ps, next.name);
    assert ps'[at] == next;
    SomeRecordRoutes(keys', ps', at);
    var from := RoutingSound(keys', ps', next.name);
    if !KeyGiven(key) || ps'[last] == next {
      LastRecordWins(keys', ps', last);
    }
  }

  /** With a key the upsert's own configuration is the only one routed under its name. */
  lemma KeyedUpsertRoutes(keys: Keys, ps: seq<Provider>, next: Provider, key: Option<string>, now: string)
    requires KeyGiven(key)
    ensures var keys' := WithBoundKey(keys, next.name, key, Sha256(ConfigOf(next)), now);
      var route := RouteOf(keys', Replaced(ps, next), next.name);
      route.Some? && route.value.apiKey == key && route.value.config == ConfigOf(next)
  {
    var keys' := WithBoundKey(keys, next.name, key, Sha256(ConfigOf(next)), now);
    var ps' := Replaced(ps, next);
    var at := IndexOf(ps, next.name);
    assert ps'[at] == next;
    SomeRecordRoutes(keys', ps', at);
    var from := RoutingSound(keys', ps', next.name);
  }

  lemma ProposedIsGood(input: Input)
    requires Accepted(input)
    ensures GoodProvider(Proposed(input))
  {
    forall i | 0 <= i < |input.headers|
      ensures IsHeader(Proposed(input).headers[i])
    {
      assert |"header"| != |"value"|;
    }
    if input.media.NewMedia? {
      MediaOfIsGood(Some(input.media.raw));
    }
  }

  /** What the settings document reads as after an upsert: the list with this provider replaced. */
  lemma UpsertStores(input: Input, raws: seq<Raw>)
    requires Accepted(input)
    ensures var next := NextProvider(input, Stored(raws));
      Stored(ListJson(Replaced(Stored(raws), next))) == Replaced(Stored(raws), next)
  {
    ProposedIsGood(input);
    StoredRoundTrip(Replaced(Stored(raws), NextProvider(input, Stored(raws))));
  }

  lemma {:induction false} WithoutIsGood(ps: seq<Provider>, name: string)
    requires forall i :: 0 <= i < |ps| ==> GoodProvider(ps[i])
    ensures forall i :: 0 <= i < |Without(ps, name)| ==> GoodProvider(Without(ps, name)[i])
    ensures |Without(ps, name)| <= |ps| && (|Without(ps, name)| == |ps| ==> Without(ps, name) == ps)
    decreases |ps|
  {
    if ps != [] {
      WithoutIsGood(ps[..|ps| - 1], name);
    }
  }

  /** What the settings document reads as after a remove. */
  lemma RemoveStores(s: State, provider: string, now: string)
    ensures Stored(PlanFor(s, Remove(provider), now).newList) == Without(Stored(s.list), provider)
  {
    WithoutIsGood(Stored(s.list), provider);
    StoredRoundTrip(Without(Stored(s.list), provider));
  }

  /** A record of the same name after the one replaced wins the route when there is no key to shut it out. */
  lemma DuplicateCanWin()
    ensures var one, two := Provider("p", Some("1"), [], [], None), Provider("p", Some("2"), [], [], None);
      var next := one.(baseUrl := Some("3"));
      RouteOf(WithBoundKey(map[], "p", None, Sha256(ConfigOf(next)), ""), Replaced([one, two], next), "p")
        == Some(Remote(ConfigOf(two), None, None))
  {
    var one, two := Provider("p", Some("1"), [], [], None), Provider("p", Some("2"), [], [], None);
    var next := one.(baseUrl := Some("3"));
    assert IndexOf([one, two], "p") == 0;
    LastRecordWins(map[], Replaced([one, two], next), 1);
    var none: Keys := map[];
    assert none - {"p"} == none;
  }

  /** What a committed upsert leaves: its plan's documents, read back as the list with the provider replaced. */
  lemma CommitLeaves(keys: Keys, list: seq<Raw>, acts: seq<Action>, a: Action) returns (now: string)
    requires var s := Exec(Opened(keys, list), acts);
      !s.stage.Idle? && Commits(s, a) && s.stage.plan.op.Upsert?
    ensures var s := Exec(Opened(keys, list), acts);
      var s', plan := Next(s, a), s.stage.plan;
      var next := NextProvider(plan.op.input, Stored(plan.list));
      && Stored(s'.list) == Replaced(Stored(plan.list), next)
      && s'.keys == WithBoundKey(plan.keys, next.name, KeyFor(plan.op.input, plan.keys), Sha256(ConfigOf(next)), now)
  {
    var s := Exec(Opened(keys, list), acts);
    var plan := s.stage.plan;
    ExecOk(Opened(keys, list), acts);
    now :| plan == PlanFor(Opened(plan.keys, plan.list), plan.op, now);
    UpsertStores(plan.op.input, plan.list);
  }

  /**
   * In every run, when an upsert commits every other provider's route, key and binding are what they
   * were when it began.
   */
  lemma UpsertKeepsOthers(keys: Keys, list: seq<Raw>, acts: seq<Action>, a: Action, name: string)
    requires var s := Exec(Opened(keys, list), acts);
      && !s.stage.Idle? && Commits(s, a) && s.stage.plan.op.Upsert?
      && name != NameOf(s.stage.plan.op)
    ensures var s := Exec(Opened(keys, list), acts);
      var s', plan := Next(s, a), s.stage.plan;
      && RecordOf(s'.keys, name) == RecordOf(plan.keys, name)
      && RouteOf(s'.keys, Stored(s'.list), name) == RouteOf(plan.keys, Stored(plan.list), name)
  {
    var s := Exec(Opened(keys, list), acts);
    var plan := s.stage.plan;
    var now := CommitLeaves(keys, list, acts, a);
    var ps := Stored(plan.list);
    RouteReplaced(plan.keys, Next(s, a).keys, ps, NextProvider(plan.op.input, ps), name);
  }

  /**
   * In every run, when an upsert commits its provider is routed, with its key if it has one, and to
   * what the input spelled out if and only if a key is stored or the last record of that name says so.
   */
  lemma UpsertIsRouted(keys: Keys, list: seq<Raw>, acts: seq<Action>, a: Action, last: nat)
    requires var s := Exec(Opened(keys, list), acts);
      && !s.stage.Idle? && Commits(s, a) && s.stage.plan.op.Upsert?
      && LastNamed(Stored(Next(s, a).list), NameOf(s.stage.plan.op), last)
    ensures var s := Exec(Opened(keys, list), acts);
      var s', plan := Next(s, a), s.stage.plan;
      var key, config := KeyFor(plan.op.input, plan.keys), ConfigOf(Proposed(plan.op.input));
      var route := RouteOf(s'.keys, Stored(s'.list), NameOf(plan.op));
      && route.Some? && route.value.apiKey == (if KeyGiven(key) then key else None)
      && (route.value.config == config <==> KeyGiven(key) || ConfigOf(Stored(s'.list)[last]) == config)
  {
    var s := Exec(Opened(keys, list), acts);
    var plan := s.stage.plan;
    var now := CommitLeaves(keys, list, acts, a);
    var ps := Stored(plan.list);
    UpsertRoutes(plan.keys, ps, NextProvider(plan.op.input, ps), KeyFor(plan.op.input, plan.keys), now, last);
  }

  /** In every run, when a remove commits its provider has no route and no key, and the others keep theirs. */
  lemma CommittedRemove(keys: Keys, list: seq<Raw>, acts: seq<Action>, a: Action, name: string)
    requires var s := Exec(Opened(keys, list), acts);
      !s.stage.Idle? && Commits(s, a) && s.stage.plan.op.Remove?
    ensures var s := Exec(Opened(keys, list), acts);
      var s', plan := Next(s, a), s.stage.plan;
      var gone := name == plan.op.provider;
      && RecordOf(s'.keys, name) == (if gone then None else RecordOf(plan.keys, name))
      && RouteOf(s'.keys, Stored(s'.list), name) == (if gone then None else RouteOf(plan.keys, Stored(plan.list), name))
  {
    var s := Exec(Opened(keys, list), acts);
    var s' := Next(s, a);
    var plan := s.stage.plan;
    ExecOk(Opened(keys, list), acts);
    var now: string :| plan == PlanFor(Opened(plan.keys, plan.list), plan.op, now);
    RemoveStores(Opened(plan.keys, plan.list), plan.op.provider, now);
    RouteWithout(if name == plan.op.provider then s'.keys else plan.keys, s'.keys, Stored(plan.list), plan.op.provider, name);
  }
}
