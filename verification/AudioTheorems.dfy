// What the audio module promises, for every run of the protocol: every sequence of calls, steps,
// failures and deaths, in every order.

module AudioTheorems {
  import opened Options
  import opened AudioJobs
  import opened AudioProtocol
  import opened AudioSafety

  /** The state after a run from the start. */
  function Reached(idleEnabled: bool, acts: seq<Action>): State {
    Exec(Init(idleEnabled), acts)
  }

  lemma ReachedOk(idleEnabled: bool, acts: seq<Action>)
    ensures Inv(Reached(idleEnabled, acts))
  {
    InitOk(idleEnabled);
    ExecOk(Init(idleEnabled), acts);
  }

  // --- one server, one slot --------------------------------------------------------------------

  /** How many of `session`, `stopping` and `starting` hold server `id`. */
  function SlotsHolding(sl: Slots, id: nat): nat {
    (if sl.session.Some? && sl.session.value.id == id then 1 else 0)
    + (if sl.stopping.Some? && sl.stopping.value.server.id == id then 1 else 0)
    + (if sl.starting.Some? && sl.spawning.Some? && sl.spawning.value.id == id then 1 else 0)
  }

  /** How many of the three slots are taken. */
  function SlotsTaken(sl: Slots): nat {
    (if sl.session.Some? then 1 else 0) + (if sl.stopping.Some? then 1 else 0) + (if sl.starting.Some? then 1 else 0)
  }

  function SpecOf(o: Occupant): Spec {
    o.spec
  }

  /** The server in a slot. */
  function Resident(sl: Slots): Option<Server> {
    if sl.session.Some? then sl.session
    else if sl.stopping.Some? then Some(sl.stopping.value.server)
    else sl.spawning
  }

  /**
   * At most one audio server is ever live, it is in exactly one of the three slots, no other slot is
   * taken, and GPU residency is told of exactly that server.
   */
  lemma OneServerInOneSlot(idleEnabled: bool, acts: seq<Action>)
    ensures var s := Reached(idleEnabled, acts);
      && |s.slots.live| <= 1
      && SlotsTaken(s.slots) <= 1
      && forall id :: id in s.slots.live ==>
           && SlotsHolding(s.slots, id) == 1
           && Resident(s.slots).Some? && Resident(s.slots).value.id == id
           && |Occupancy(s)| == 1 && SpecOf(Occupancy(s)[0]) == Resident(s.slots).value.spec
  {
    ReachedOk(idleEnabled, acts);
    var sl := Reached(idleEnabled, acts).slots;
    if sl.live != {} {
      var id :| id in sl.live;
      forall other | other in sl.live
        ensures other == id
      {
      }
      assert sl.live == {id};
    }
  }

  // --- what any step keeps ---------------------------------------------------------------------

  /** The lasting effects of a step on the jobs, whoever takes it. */
  ghost predicate JobsAdvance(w: Work, w': Work) {
    && w.nextJob <= w'.nextJob && w.requested <= w'.requested && w.saved <= w'.saved && w.posted <= w'.posted
    && (forall j: JobId :: j in w'.saved && j !in w.saved ==> j !in w.requested)
    && (forall j: JobId :: j in w'.posted && j !in w.posted ==> j !in w.requested)
    && Settled(w, w')
  }

  ghost predicate Advances(s: State, s': State) {
    && JobsAdvance(s.work, s'.work)
    && s.generation <= s'.generation
    && (s.closing ==> s'.closing)
    && (s.shutDown ==> s'.shutDown && s'.slots.nextServer == s.slots.nextServer)
  }

  lemma GoodStepAdvances(s: State, s': State, t: TaskId)
    requires Inv(s) && GoodStep(s, s', t)
    ensures Advances(s, s')
  {
    if t < |s.tasks| {
      assert TaskOk(s, t, s.tasks[t]);
    }
  }

  lemma IdleTickAdvances(s: State)
    requires Inv(s)
    ensures Advances(s, Next(s, IdleTick)) && KeepsLive(s.work, Next(s, IdleTick).work)
  {
  }

  lemma CallShutdownAdvances(s: State)
    requires Inv(s)
    ensures Advances(s, Next(s, CallShutdown)) && KeepsLive(s.work, Next(s, CallShutdown).work)
  {
  }

  lemma CallAdvances(s: State, a: Action)
    requires Inv(s) && !a.Run? && !a.CallCancel? && !a.CallStart? && !a.IdleTick? && !a.CallShutdown?
    ensures Advances(s, Next(s, a)) && KeepsLive(s.work, Next(s, a).work)
  {
  }

  lemma CallCancelAdvances(s: State, job: JobId)
    requires Inv(s)
    ensures Advances(s, Next(s, CallCancel(job))) && KeepsLive(s.work, Next(s, CallCancel(job)).work)
  {
    EnterCancelOk(WithTask(s, Done), |s.tasks|, job, Client);
  }

  lemma CallStartAdvances(s: State, withVoice: bool)
    requires Inv(s)
    ensures Advances(s, Next(s, CallStart(withVoice))) && KeepsLive(s.work, Next(s, CallStart(withVoice)).work)
  {
    if !s.closing && s.spec.Some? && s.work.table.active.None? && !withVoice {
      RegisterOk(s.work, |s.tasks|);
    }
  }

  lemma StepAdvances(s: State, t: TaskId, c: Choice)
    requires Inv(s) && t < |s.tasks|
    ensures Advances(s, StepTask(s, t, c)) && KeepsLive(s.work, StepTask(s, t, c).work)
  {
    var s' := StepTask(s, t, c);
    StepTaskOk(s, t, c);
    if s' != s {
      GoodStepAdvances(s, s', t);
    }
  }

  lemma NextAdvances(s: State, a: Action)
    requires Inv(s)
    ensures Advances(s, Next(s, a)) && KeepsLive(s.work, Next(s, a).work)
  {
    if a.CallCancel? {
      CallCancelAdvances(s, a.job);
    } else if a.CallStart? {
      CallStartAdvances(s, a.withVoice);
    } else if a.IdleTick? {
      IdleTickAdvances(s);
    } else if a.CallShutdown? {
      CallShutdownAdvances(s);
    } else if !a.Run? {
      CallAdvances(s, a);
    } else if a.task < |s.tasks| {
      StepAdvances(s, a.task, a.choice);
    }
  }

  lemma {:induction false} ExecAdvances(s: State, acts: seq<Action>)
    requires Inv(s)
    ensures Advances(s, Exec(s, acts))
    decreases |acts|
  {
    if acts != [] {
      var s1 := Next(s, acts[0]);
      NextOk(s, acts[0]);
      NextAdvances(s, acts[0]);
      ExecAdvances(s1, acts[1..]);
      AdvancesTrans(s, s1, Exec(s1, acts[1..]));
    }
  }

  lemma AdvancesTrans(s: State, s1: State, s2: State)
    requires Advances(s, s1) && Advances(s1, s2)
    ensures Advances(s, s2)
  {
  }

  // --- shutdown --------------------------------------------------------------------------------

  /**
   * Once a `shutdown` has resolved no audio server is live, none is ever spawned again and no slot
   * is ever taken again, whatever was queued before or is called after.
   */
  lemma ShutdownIsFinal(idleEnabled: bool, before: seq<Action>, after: seq<Action>)
    requires Reached(idleEnabled, before).shutDown
    ensures var s := Reached(idleEnabled, before);
      var s' := Exec(s, after);
      && s'.slots.live == {} && SlotsTaken(s'.slots) == 0 && Occupancy(s') == []
      && s'.slots.nextServer == s.slots.nextServer
  {
    ReachedOk(idleEnabled, before);
    ExecOk(Reached(idleEnabled, before), after);
    ExecAdvances(Reached(idleEnabled, before), after);
  }

  // --- jobs ------------------------------------------------------------------------------------

  /**
   * In every reachable state the table and its order list agree, hold at most 50 jobs, and
   * `activeJobId` names a job exactly when it is the one job that is not over.
   */
  lemma JobTableLaw(idleEnabled: bool, acts: seq<Action>)
    ensures Valid(Reached(idleEnabled, acts).work.table)
  {
    ReachedOk(idleEnabled, acts);
  }

  /** A job reaches a terminal state once: as long as the table remembers it, it says the same. */
  lemma TerminalForever(idleEnabled: bool, before: seq<Action>, after: seq<Action>, job: JobId)
    requires var tb := Reached(idleEnabled, before).work.table;
      job in tb.jobs && Terminal(tb.jobs[job].state)
    ensures var tb := Reached(idleEnabled, before).work.table;
      var tb' := Exec(Reached(idleEnabled, before), after).work.table;
      !Live(tb', job) && (job in tb'.jobs ==> tb'.jobs[job] == tb.jobs[job])
  {
    ReachedOk(idleEnabled, before);
    ExecAdvances(Reached(idleEnabled, before), after);
  }

  /** No step evicts a job that is not over. */
  lemma LiveJobsStay(idleEnabled: bool, acts: seq<Action>, a: Action, job: JobId)
    requires Live(Reached(idleEnabled, acts).work.table, job)
    ensures job in Next(Reached(idleEnabled, acts), a).work.table.jobs
  {
    ReachedOk(idleEnabled, acts);
    NextAdvances(Reached(idleEnabled, acts), a);
  }

  // --- cancels ---------------------------------------------------------------------------------

  /** A job whose cancel was requested before its clip was saved never saves one and never completes. */
  lemma CancelledBeforeSaving(idleEnabled: bool, before: seq<Action>, after: seq<Action>, job: JobId)
    requires var w := Reached(idleEnabled, before).work; job in w.requested && job !in w.saved
    ensures var w := Exec(Reached(idleEnabled, before), after).work;
      job !in w.saved && (job in w.table.jobs ==> !w.table.jobs[job].state.Completed?)
  {
    ReachedOk(idleEnabled, before);
    ExecOk(Reached(idleEnabled, before), after);
    ExecAdvances(Reached(idleEnabled, before), after);
  }

  /** A job whose cancel was requested before its request was posted never posts one. */
  lemma CancelledBeforePosting(idleEnabled: bool, before: seq<Action>, after: seq<Action>, job: JobId)
    requires var w := Reached(idleEnabled, before).work; job in w.requested && job !in w.posted
    ensures job !in Exec(Reached(idleEnabled, before), after).work.posted
  {
    ReachedOk(idleEnabled, before);
    ExecAdvances(Reached(idleEnabled, before), after);
  }

  /**
   * When `cancelAudioJob` has resolved the job is over, and a `cancelled: true` means it saved no
   * clip and did not complete.
   */
  lemma ResolvedCancelIsOver(idleEnabled: bool, acts: seq<Action>, t: TaskId)
    requires var s := Reached(idleEnabled, acts);
      t < |s.tasks| && s.tasks[t].CancelSettled? && s.tasks[t].answer.Some?
    ensures var s := Reached(idleEnabled, acts);
      var CancelSettled(job, _, answer) := s.tasks[t];
      && !Live(s.work.table, job)
      && (answer.value ==>
            job !in s.work.saved && (job in s.work.table.jobs ==> !s.work.table.jobs[job].state.Completed?))
  {
    ReachedOk(idleEnabled, acts);
    var s := Reached(idleEnabled, acts);
    assert TaskOk(s, t, s.tasks[t]);
  }

  // --- old teardowns and new loads -------------------------------------------------------------

  /** A task that has just entered `unloadSession`. */
  predicate EntersUnload(pc: Pc, pc': Pc) {
    && !pc.Unload? && pc != pc'
    && ((pc'.Unload? && pc'.unload.UnloadAnnounced?) || (pc'.Tear? && pc'.tear.Draining? && pc'.k.ThenUnload?))
  }

  /** A task that has just entered `loadFromSpec`, or `loadModel` past its check of `closing`. */
  predicate EntersLoad(pc: Pc, pc': Pc) {
    || (pc'.Spawn? && pc'.spawn.Announced? && !pc.Spawn?)
    || (pc == WantLock(LoadOp) && pc' != pc && !pc'.Done?)
  }

  predicate Begins(s: State, s': State, t: TaskId) {
    && t < |s.tasks| && t < |s'.tasks|
    && (EntersUnload(s.tasks[t], s'.tasks[t]) || EntersLoad(s.tasks[t], s'.tasks[t]))
  }

  /** A load or an unload begins with this action. */
  predicate BeginsLoadOrUnload(s: State, a: Action) {
    match a
    case IdleTick => |Next(s, a).tasks| > |s.tasks|
    case Run(t, c) => Begins(s, Next(s, a), t)
    case _ => false
  }

  /** The generation counts the beginnings: this step raises it exactly when it begins one. */
  predicate Counts(s: State, s': State, t: TaskId) {
    if Begins(s, s', t) then s'.generation > s.generation else s'.generation == s.generation
  }

  lemma GrantCounts(s: State, t: TaskId, op: LockOp, c: Choice)
    requires t < |s.tasks| && s.tasks[t] == WantLock(op)
    ensures Counts(s, StepGrant(s, t, op, c), t)
  {
    match op
    case LoadOp => if !s.closing && s.lock.None? { EnterLoadCounts(s, t); }
    case UnloadOp => GrantUnloadCounts(s, t);
    case ActivateOp => GrantActivateCounts(s, t, c);
    case ShutdownOp =>
    case RespawnOp(job) => GrantRespawnCounts(s, t, job);
  }

  lemma GrantUnloadCounts(s: State, t: TaskId)
    requires t < |s.tasks| && s.tasks[t] == WantLock(UnloadOp)
    ensures Counts(s, GrantUnload(s, t), t)
  {
  }

  lemma GrantActivateCounts(s: State, t: TaskId, c: Choice)
    requires t < |s.tasks| && s.tasks[t] == WantLock(ActivateOp)
    ensures Counts(s, GrantActivate(s, t, c), t)
  {
  }

  lemma GrantRespawnCounts(s: State, t: TaskId, job: JobId)
    requires t < |s.tasks| && s.tasks[t] == WantLock(RespawnOp(job))
    ensures Counts(s, GrantRespawn(s, t, job), t)
  {
  }

  lemma EnterLoadCounts(s: State, t: TaskId)
    requires t < |s.tasks| && s.tasks[t] == WantLock(LoadOp)
    ensures Counts(s, EnterLoad(s, t), t)
  {
  }

  lemma TearCounts(s: State, t: TaskId, at: TearStage, k: After, c: Choice)
    requires t < |s.tasks| && s.tasks[t] == Tear(at, k)
    ensures Counts(s, StepTear(s, t, at, k, c), t)
  {
    if at.TookDown? {
      TookDownCounts(s, t, k, at.confirmed);
    }
  }

  lemma TookDownCounts(s: State, t: TaskId, k: After, confirmed: bool)
    requires t < |s.tasks| && s.tasks[t] == Tear(TookDown(confirmed), k)
    ensures Counts(s, StepTookDown(s, t, k, confirmed), t)
  {
  }

  lemma SpawnCounts(s: State, t: TaskId, at: SpawnStage, spec: Spec, who: LoadFor, c: Choice)
    requires t < |s.tasks| && s.tasks[t] == Spawn(at, spec, who)
    ensures Counts(s, StepSpawn(s, t, at, spec, who, c), t)
  {
  }

  lemma PostingCounts(s: State, t: TaskId, job: JobId, server: Server, c: Choice)
    requires t < |s.tasks| && s.tasks[t] == Runs(Posting(server), job)
    ensures Counts(s, StepPosting(s, t, job, server, c), t)
  {
  }

  lemma RunsCounts(s: State, t: TaskId, at: RunStage, job: JobId, c: Choice)
    requires t < |s.tasks| && s.tasks[t] == Runs(at, job)
    ensures Counts(s, StepRuns(s, t, at, job, c), t)
  {
    match at
    case Posting(server) => PostingCounts(s, t, job, server, c);
    case _ =>
  }

  lemma UnloadCounts(s: State, t: TaskId, at: UnloadStage, why: UnloadFor, c: Choice)
    requires t < |s.tasks| && s.tasks[t] == Unload(at, why)
    ensures Counts(s, StepUnload(s, t, at, why, c), t)
  {
  }

  lemma CancelSettledCounts(s: State, t: TaskId, caller: Caller, c: Choice)
    requires t < |s.tasks| && s.tasks[t].CancelSettled?
    ensures Counts(s, StepCancelSettled(s, t, caller, c), t)
  {
  }

  lemma OthersCount(s: State, t: TaskId, c: Choice)
    requires t < |s.tasks|
    ensures s.tasks[t].KeptSpec? ==> Counts(s, StepKeptSpec(s, t, s.tasks[t].keep, s.tasks[t].confirmed), t)
    ensures s.tasks[t].AwaitRunner? ==> Counts(s, StepAwaitRunner(s, t, s.tasks[t].job, s.tasks[t].caller), t)
    ensures s.tasks[t].ReadingVoice? ==> Counts(s, StepReadingVoice(s, t, s.tasks[t].spec, c), t)
    ensures s.tasks[t].Preparing? ==> Counts(s, StepPreparing(s, t, c), t)
  {
  }

  lemma StepCounts(s: State, t: TaskId, c: Choice)
    requires t < |s.tasks|
    ensures Counts(s, StepTask(s, t, c), t)
  {
    match s.tasks[t]
    case WantLock(op) => GrantCounts(s, t, op, c);
    case Tear(at, k) => TearCounts(s, t, at, k, c);
    case Spawn(at, spec, who) => SpawnCounts(s, t, at, spec, who, c);
    case Unload(at, why) => UnloadCounts(s, t, at, why, c);
    case Runs(at, job) => RunsCounts(s, t, at, job, c);
    case LoadEnded(_, _, _) =>
    case CancelSettled(_, caller, _) => CancelSettledCounts(s, t, caller, c);
    case Done =>
    case _ => OthersCount(s, t, c);
  }

  /** A load or an unload strictly raises the generation, and nothing else touches it. */
  lemma GenerationCountsBeginnings(s: State, a: Action)
    ensures if BeginsLoadOrUnload(s, a) then Next(s, a).generation > s.generation
            else Next(s, a).generation == s.generation
  {
    if a.Run? && a.task < |s.tasks| {
      StepCounts(s, a.task, a.choice);
    }
  }

  /** Some action of the run begins a load or an unload. */
  predicate SomethingBegan(s: State, acts: seq<Action>)
    decreases |acts|
  {
    acts != [] && (BeginsLoadOrUnload(s, acts[0]) || SomethingBegan(Next(s, acts[0]), acts[1..]))
  }

  lemma {:induction false} GenerationCountsRun(s: State, acts: seq<Action>)
    ensures s.generation <= Exec(s, acts).generation
    ensures SomethingBegan(s, acts) <==> Exec(s, acts).generation != s.generation
    decreases |acts|
  {
    if acts != [] {
      GenerationCountsBeginnings(s, acts[0]);
      GenerationCountsRun(Next(s, acts[0]), acts[1..]);
    }
  }

  /**
   * A teardown that keeps the spec touches the model state and the idle deadline exactly when it was
   * confirmed, the owner is not shutting down, and no load or unload began since it started: an old
   * teardown never overwrites a newer load's state.
   */
  lemma OnlyCurrentTeardownReports(s: State, acts: seq<Action>, t: TaskId, keep: KeepFor, confirmed: bool, c: Choice)
    requires t < |Exec(s, acts).tasks|
    requires Exec(s, acts).tasks[t] == Tear(TookDown(confirmed), ThenKeep(s.generation, keep))
    ensures var s1 := Exec(s, acts);
      var s2 := Next(s1, Run(t, c));
      if confirmed && !s1.closing && !SomethingBegan(s, acts)
      then !s2.idleArmed && s2.modelState == (if keep.CrashOf? then LoadFailed else Unloaded)
      else s2.idleArmed == s1.idleArmed && s2.modelState == s1.modelState
  {
    GenerationCountsRun(s, acts);
  }
}
