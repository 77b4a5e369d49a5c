// Runs that leave a session of the model without this core's claim. In each the claim is given up
// while a reload of the session, which no transition covers, is in flight.

module LocalSessionsWitness {
  import opened Options
  import opened LocalSessions
  import opened LocalSessionsTheorems

  /** The run so far, one action longer. */
  lemma Then(acts: seq<Action>, s: State, a: Action, s': State) returns (more: seq<Action>)
    requires Exec(Init(), acts) == s && Next(s, a) == s'
    ensures Exec(Init(), more) == s'
  {
    ExecAppend(Init(), acts, [a]);
    assert Exec(s, [a]) == Exec(s', [a][1..]) == s';
    more := acts + [a];
  }

  const NONE := Runtime(false, None, {}, None, {}, [], 0)
  const UP := Runtime(true, None, {}, None, {0}, [], 1)

  /** The first acquire, at this point. */
  function First(pc: Pc, held: bool, rt: Runtime): State {
    State([Task(true, None, false, false, pc)], Some(0), held, held, rt, Open)
  }

  lemma ReadyRun() returns (acts: seq<Action>)
    ensures Exec(Init(), acts) == First(Updating(true), true, UP)
  {
    acts := [];
    assert Exec(Init(), []) == Init();
    var loading := NONE.(loading := Some(Load(0, Some(0))), tickets := 1);
    acts := Then(acts, Init(), CallAcquire, First(Waiting, false, NONE));
    acts := Then(acts, First(Waiting, false, NONE), Run(0, true), First(Claiming, false, NONE));
    acts := Then(acts, First(Claiming, false, NONE), Run(0, true), First(Checking(true), true, NONE));
    acts := Then(acts, First(Checking(true), true, NONE), Run(0, true), First(Loading(true, Awaits(0, true)), true, loading));
    acts := Then(acts, First(Loading(true, Awaits(0, true)), true, loading), LoadEnds(true),
                 First(Loading(true, Awaits(0, true)), true, UP));
    acts := Then(acts, First(Loading(true, Awaits(0, true)), true, UP), Run(0, true), First(Updating(true), true, UP));
  }

  /** The first acquire has answered; a second transition may be under way. */
  function After(second: seq<Task>, held: bool, rt: Runtime): State {
    State([Task(true, None, false, true, Settled(true))] + second, Some(|second|), held, true, rt, Open)
  }

  const STOPPING := Runtime(false, Some(1), {}, None, {0}, [1], 2)
  const STOPPED := Runtime(false, None, {1}, None, {0}, [1], 2)
  const RELOADING := Runtime(false, None, {1}, Some(Load(2, None)), {0}, [], 3)
  const BACK := Runtime(true, None, {1}, None, {0, 2}, [], 3)

  lemma ReloadRun() returns (acts: seq<Action>)
    ensures Exec(Init(), acts) == After([], true, STOPPING)
  {
    acts := ReadyRun();
    acts := Then(acts, First(Updating(true), true, UP), Run(0, true), After([], true, UP));
    acts := Then(acts, After([], true, UP), ReloadBegins, After([], true, STOPPING));
  }

  function SecondUnload(pc: Pc): seq<Task> {
    [Task(false, Some(0), false, true, pc)]
  }

  /** An unload of a model whose reload is loading has nothing to stop: it answers at once. */
  lemma UnloadingRun() returns (acts: seq<Action>)
    ensures Exec(Init(), acts) == After(SecondUnload(Unloading(None)), true, RELOADING)
  {
    acts := ReloadRun();
    acts := Then(acts, After([], true, STOPPING), StopEnds(true, false), After([], true, STOPPED));
    acts := Then(acts, After([], true, STOPPED), ReloadLoads(0), After([], true, RELOADING));
    acts := Then(acts, After([], true, RELOADING), CallUnload, After(SecondUnload(Waiting), true, RELOADING));
    acts := Then(acts, After(SecondUnload(Waiting), true, RELOADING), Run(1, true),
                 After(SecondUnload(Unloading(None)), true, RELOADING));
  }

  /** ... gives up the claim, and the reload brings up a session nobody claims. No acquire is involved. */
  lemma UnloadDuringReload() returns (acts: seq<Action>)
    ensures Exec(Init(), acts) == After(SecondUnload(Dropping), false, BACK)
  {
    acts := UnloadingRun();
    acts := Then(acts, After(SecondUnload(Unloading(None)), true, RELOADING), Run(1, true),
                 After(SecondUnload(Dropping), false, RELOADING));
    assert {0} + {2} == {0, 2};
    acts := Then(acts, After(SecondUnload(Dropping), false, RELOADING), LoadEnds(true), After(SecondUnload(Dropping), false, BACK));
  }

  /** The reload may even be done first: then the claim is given up over a live session. */
  lemma UnloadOverSession() returns (acts: seq<Action>, a: Action)
    ensures var s := Exec(Init(), acts); s.held && s.rt.session && !Next(s, a).held && Next(s, a).rt.session
  {
    acts := UnloadingRun();
    assert {0} + {2} == {0, 2};
    acts := Then(acts, After(SecondUnload(Unloading(None)), true, RELOADING), LoadEnds(true),
                 After(SecondUnload(Unloading(None)), true, BACK));
    a := Run(1, true);
    assert Next(After(SecondUnload(Unloading(None)), true, BACK), a) == After(SecondUnload(Dropping), false, BACK);
  }

  function SecondAcquire(pc: Pc): seq<Task> {
    [Task(true, Some(0), false, false, pc)]
  }

  /** An acquire that begins while the reload is stopping the session takes itself for the creator, and fails. */
  lemma AcquireDuringStop() returns (acts: seq<Action>)
    ensures Exec(Init(), acts) == After(SecondAcquire(Releasing), false, BACK)
  {
    acts := ReloadRun();
    acts := Then(acts, After([], true, STOPPING), CallAcquire, After(SecondAcquire(Waiting), true, STOPPING));
    acts := Then(acts, After(SecondAcquire(Waiting), true, STOPPING), Run(1, true), After(SecondAcquire(Checking(true)), true, STOPPING));
    acts := Then(acts, After(SecondAcquire(Checking(true)), true, STOPPING), Run(1, false),
                 After(SecondAcquire(Releasing), false, STOPPING));
    acts := Then(acts, After(SecondAcquire(Releasing), false, STOPPING), StopEnds(true, false),
                 After(SecondAcquire(Releasing), false, STOPPED));
    acts := Then(acts, After(SecondAcquire(Releasing), false, STOPPED), ReloadLoads(0), After(SecondAcquire(Releasing), false, RELOADING));
    assert {0} + {2} == {0, 2};
    acts := Then(acts, After(SecondAcquire(Releasing), false, RELOADING), LoadEnds(true), After(SecondAcquire(Releasing), false, BACK));
  }

  /** An acquire whose claim cannot be marked ready while its own session is being reloaded gives it up too. */
  lemma UpdateFailsDuringReload() returns (acts: seq<Action>)
    ensures var s := Exec(Init(), acts); s.rt == STOPPING && !s.held
  {
    acts := ReadyRun();
    acts := Then(acts, First(Updating(true), true, UP), ReloadBegins, First(Updating(true), true, STOPPING));
    acts := Then(acts, First(Updating(true), true, STOPPING), Run(0, false),
                 First(Releasing, true, STOPPING).(held := false));
  }
}
