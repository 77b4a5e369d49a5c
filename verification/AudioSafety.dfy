// What every interleaving of the audio protocol keeps: one inductive invariant over all tasks at
// once, preserved by every step.

module AudioSafety {
  import opened Options
  import opened AudioJobs
  import opened AudioProtocol

  // --- what a program counter says about its task ----------------------------------------------

  predicate HeldDuring(k: After) {
    k.ThenKeep? ==> k.keep.CancelOf? && !k.keep.caller.Client?
  }

  /** A task that holds the load lock. */
  predicate HoldsLock(pc: Pc) {
    || (pc.Tear? && HeldDuring(pc.k))
    || pc.Preparing? || pc.Spawn? || pc.LoadEnded? || pc.Unload?
    || (pc.KeptSpec? && pc.keep.CancelOf? && !pc.keep.caller.Client?)
    || ((pc.AwaitRunner? || pc.CancelSettled?) && !pc.caller.Client?)
  }

  /** A task between a confirmed teardown under the lock and the end of its spawn. */
  predicate Cleared(pc: Pc) {
    || (pc.Tear? && pc.tear == TookDown(true) && (pc.k.ThenLoad? || pc.k.ThenRespawn? || pc.k.ThenShutdown?))
    || pc.Preparing? || pc.Spawn?
  }

  /** A task that is a load or respawn that has passed the check of `closing`. */
  predicate PastGate(pc: Pc) {
    || (pc.Tear? && (pc.k.ThenLoad? || pc.k.ThenRespawn? ||
                     (pc.k.ThenKeep? && pc.k.keep.CancelOf? && pc.k.keep.caller.ByLoad?)))
    || (pc.KeptSpec? && pc.keep.CancelOf? && pc.keep.caller.ByLoad?)
    || ((pc.AwaitRunner? || pc.CancelSettled?) && pc.caller.ByLoad?)
    || pc.Preparing? || pc.Spawn?
  }

  function RunnerLoading(who: LoadFor): Option<JobId> {
    if who.ForJob? then Some(who.job) else None
  }

  function RunnerDuring(k: After): Option<JobId> {
    if k.ThenRespawn? then Some(k.job)
    else if k.ThenKeep? && k.keep.CrashOf? then Some(k.keep.job)
    else None
  }

  /** The job this task is the runner of. */
  function RunnerOf(pc: Pc): Option<JobId> {
    if pc.Runs? then Some(pc.job)
    else if pc.WantLock? && pc.op.RespawnOp? then Some(pc.op.job)
    else if pc.Tear? then RunnerDuring(pc.k)
    else if pc.KeptSpec? && pc.keep.CrashOf? then Some(pc.keep.job)
    else if pc.Spawn? || pc.LoadEnded? then RunnerLoading(pc.who)
    else None
  }

  /** The job this task stops the server for, as a cancel. */
  function CancelsRunning(pc: Pc): Option<JobId> {
    if pc.Tear? && pc.k.ThenKeep? && pc.k.keep.CancelOf? then Some(pc.k.keep.job)
    else if pc.KeptSpec? && pc.keep.CancelOf? then Some(pc.keep.job)
    else None
  }

  // --- the invariant ---------------------------------------------------------------------------

  /** A live server is in a slot, at most one slot is taken, and a seen exit is an exit. */
  ghost predicate SlotsOk(sl: Slots) {
    && (sl.session.Some? ==> sl.starting.None? && sl.stopping.None? && sl.session.value.id < sl.nextServer)
    && (sl.stopping.Some? ==> sl.starting.None? && sl.stopping.value.server.id < sl.nextServer)
    && (sl.spawning.Some? ==> sl.starting == Some(sl.spawning.value.spec) && sl.spawning.value.id < sl.nextServer)
    && (forall id :: id in sl.live ==> id < sl.nextServer && id !in sl.exited && InSlot(sl, id))
    && (forall id :: id in sl.exited ==> id < sl.nextServer)
  }

  predicate InSlot(sl: Slots, id: nat) {
    || (sl.session.Some? && sl.session.value.id == id)
    || (sl.stopping.Some? && sl.stopping.value.server.id == id)
    || (sl.spawning.Some? && sl.spawning.value.id == id)
  }

  predicate Empty(sl: Slots) {
    sl.session.None? && sl.stopping.None? && sl.starting.None? && sl.live == {}
  }

  /** The table law, and what the end of a job says about its cancel and its clip. */
  ghost predicate WorkOk(w: Work) {
    && Valid(w.table)
    && (forall j: JobId :: j in w.table.jobs ==>
          && j < w.nextJob
          && (w.table.jobs[j].state.Completed? ==> j in w.saved)
          && (w.table.jobs[j].state.Cancelled? ==> j in w.requested && j !in w.saved)
          && (Live(w.table, j) && !w.table.jobs[j].phase.Saving? ==> j !in w.saved))
    && (forall j: JobId :: j in w.saved || j in w.posted || j in w.requested ==> j < w.nextJob)
  }

  predicate LockOk(lock: Option<TaskId>, t: TaskId, pc: Pc) {
    HoldsLock(pc) <==> lock == Some(t)
  }

  predicate StartSlot(pc: Pc, spec: Spec) {
    pc.Spawn? && (pc.spawn.Claiming? || pc.spawn.Settling? || pc.spawn.Starting?) && pc.spec == spec
  }

  predicate SlotOk(sl: Slots, shutDown: bool, t: TaskId, pc: Pc) {
    && (Cleared(pc) ==> sl.session.None? && sl.stopping.None?)
    && (HoldsLock(pc) && sl.starting.Some? ==> StartSlot(pc, sl.starting.value))
    && (pc.Tear? && pc.tear.Terminating? ==>
          sl.stopping.Some? && sl.stopping.value.server == pc.tear.server && sl.stopping.value.owner == t)
    && (sl.stopping.Some? && sl.stopping.value.owner == t ==> pc.Tear? && pc.tear.Terminating?)
    && (pc.Spawn? && (pc.spawn.Settling? || pc.spawn.Starting?) ==> sl.starting == Some(pc.spec))
    && (HoldsLock(pc) ==>
          if pc.Spawn? && pc.spawn.Starting? then sl.spawning == Some(pc.spawn.server) else sl.spawning.None?)
    && (PastGate(pc) ==> !shutDown)
  }

  /** What the runner of `job` knows at each stage. */
  predicate RunOk(w: Work, job: JobId, at: RunStage) {
    match at
    case SavingClip => (job !in w.requested ==> Live(w.table, job)) && job in w.saved
    case RunEnding(result) =>
      && Terminal(result)
      && (result.Completed? ==> job in w.saved)
      && (result.Cancelled? ==> job in w.requested && job !in w.saved)
    case RunnerDone => !Live(w.table, job)
    case _ => BeforeSaving(w, job)
  }

  predicate BeforeSaving(w: Work, job: JobId) {
    (job !in w.requested ==> Live(w.table, job)) && job !in w.saved
  }

  predicate RunnerOk(w: Work, t: TaskId, pc: Pc) {
    RunnerOf(pc).Some? ==>
      var job := RunnerOf(pc).value;
      && job < w.nextJob && job in w.runner && w.runner[job] == t
      && (if pc.Runs? then RunOk(w, job, pc.run) else BeforeSaving(w, job))
      && (pc.LoadEnded? && pc.cancelled ==> job in w.requested)
  }

  predicate CancelOk(w: Work, generation: nat, pc: Pc) {
    && (CancelsRunning(pc).Some? ==>
          var job := CancelsRunning(pc).value; job < w.nextJob && job in w.requested && job !in w.saved)
    && (pc.AwaitRunner? ==> pc.job < w.nextJob)
    && (pc.CancelSettled? && pc.answer.Some? ==>
          && pc.job < w.nextJob && !Live(w.table, pc.job)
          && (pc.answer.value ==> pc.job in w.requested && pc.job !in w.saved))
    && (pc.Tear? && pc.k.ThenKeep? ==> pc.k.generation <= generation)
  }

  predicate ClosingOk(closing: bool, pc: Pc) {
    pc == WantLock(ShutdownOp) || (pc.Tear? && pc.k.ThenShutdown?) ==> closing
  }

  predicate TaskOk(s: State, t: TaskId, pc: Pc) {
    && ClosingOk(s.closing, pc)
    && LockOk(s.lock, t, pc)
    && SlotOk(s.slots, s.shutDown, t, pc)
    && RunnerOk(s.work, t, pc)
    && CancelOk(s.work, s.generation, pc)
  }

  ghost predicate TasksOk(s: State) {
    forall t: nat :: t < |s.tasks| ==> TaskOk(s, t, s.tasks[t])
  }

  predicate ControlOk(s: State) {
    && (if s.lock.Some? then s.lock.value < |s.tasks| else s.slots.starting.None? && s.slots.spawning.None?)
    && (s.shutDown ==> s.closing && Empty(s.slots))
    && (s.slots.stopping.Some? ==> s.slots.stopping.value.owner < |s.tasks|)
  }

  ghost predicate Inv(s: State) {
    SlotsOk(s.slots) && WorkOk(s.work) && ControlOk(s) && TasksOk(s)
  }

  lemma InitOk(idleEnabled: bool)
    ensures Inv(Init(idleEnabled))
  {
  }

  // --- what a step of one task may do to the others --------------------------------------------

  /** `s'` is `s` after a step of task `t`, which may be the newest task. */
  ghost predicate OnlyMoved(s: State, s': State, t: TaskId) {
    && t < |s'.tasks|
    && (|s'.tasks| == |s.tasks| || (t == |s.tasks| && |s'.tasks| == |s.tasks| + 1))
    && (forall u: nat :: u < |s.tasks| && u != t ==> s'.tasks[u] == s.tasks[u])
  }

  predicate LockRely(lock: Option<TaskId>, lock': Option<TaskId>, t: TaskId) {
    || lock' == lock
    || (lock.None? && lock' == Some(t))
    || (lock == Some(t) && lock'.None?)
  }

  predicate OwnedBy(stop: Option<Stop>, t: TaskId) {
    stop.Some? ==> stop.value.owner == t
  }

  predicate SlotRely(sl: Slots, sl': Slots, lock: Option<TaskId>, t: TaskId) {
    || sl' == sl
    || (&& (|| (sl'.session == sl.session && sl'.stopping == sl.stopping)
            || (sl.session.Some? && sl.stopping.None? && OwnedBy(sl'.stopping, t))
            || (sl.stopping.Some? && sl.stopping.value.owner == t && OwnedBy(sl'.stopping, t))
            || (lock == Some(t) && sl'.stopping == sl.stopping))
        && ((sl'.starting == sl.starting && sl'.spawning == sl.spawning) || lock == Some(t)))
  }

  ghost predicate JobRely(w: Work, w': Work, t: TaskId) {
    || w' == w
    || (&& w.nextJob <= w'.nextJob
        && w.requested <= w'.requested
        && (forall j: JobId :: j < w.nextJob && j in w.runner ==> j in w'.runner && w'.runner[j] == w.runner[j])
        && (forall j: JobId :: j < w.nextJob && Live(w'.table, j) ==>
              Live(w.table, j) &&
              ((j in w.runner && w.runner[j] == t) || w'.table.jobs[j].phase == w.table.jobs[j].phase))
        && (forall j: JobId :: j < w.nextJob && Live(w.table, j) && !Live(w'.table, j) ==>
              (j in w.runner && w.runner[j] == t) ||
              (j in w'.requested && (j in w'.table.jobs ==> w'.table.jobs[j].state.Cancelled?)))
        && w.saved <= w'.saved
        && (forall j: JobId :: j in w'.saved && j !in w.saved ==>
              j in w.runner && w.runner[j] == t && j !in w.requested)
        && w.posted <= w'.posted
        && (forall j: JobId :: j in w'.posted && j !in w.posted ==> j !in w.requested)
        && Settled(w, w') && KeepsLive(w, w'))
  }

  /** No job that is not over is evicted. */
  ghost predicate KeepsLive(w: Work, w': Work) {
    forall j: JobId :: Live(w.table, j) ==> j in w'.table.jobs
  }

  /** A job that is over never changes again, and one that left the table never returns. */
  ghost predicate Settled(w: Work, w': Work) {
    forall j: JobId :: j < w.nextJob && j in w'.table.jobs ==>
      && j in w.table.jobs
      && (Terminal(w.table.jobs[j].state) ==> w'.table.jobs[j] == w.table.jobs[j])
  }

  lemma OtherLockOk(lock: Option<TaskId>, lock': Option<TaskId>, t: TaskId, u: TaskId, pc: Pc)
    requires u != t && LockOk(lock, u, pc) && LockRely(lock, lock', t)
    ensures LockOk(lock', u, pc)
  {
  }

  lemma OtherSlotOk(s: State, s': State, t: TaskId, u: TaskId, pc: Pc)
    requires u != t && LockOk(s.lock, u, pc) && SlotOk(s.slots, s.shutDown, u, pc)
    requires SlotRely(s.slots, s'.slots, s.lock, t) && (s'.shutDown == s.shutDown || s.lock == Some(t))
    ensures SlotOk(s'.slots, s'.shutDown, u, pc)
  {
  }

  lemma OtherJobOk(s: State, s': State, t: TaskId, u: TaskId, pc: Pc)
    requires u != t && RunnerOk(s.work, u, pc) && CancelOk(s.work, s.generation, pc)
    requires JobRely(s.work, s'.work, t) && s.generation <= s'.generation
    ensures RunnerOk(s'.work, u, pc) && CancelOk(s'.work, s'.generation, pc)
  {
  }

  ghost predicate Rely(s: State, s': State, t: TaskId) {
    && OnlyMoved(s, s', t)
    && LockRely(s.lock, s'.lock, t)
    && SlotRely(s.slots, s'.slots, s.lock, t)
    && (s'.shutDown == s.shutDown || s.lock == Some(t))
    && JobRely(s.work, s'.work, t)
    && s.generation <= s'.generation
    && (s.closing ==> s'.closing)
    && (s.shutDown ==> s'.shutDown)
    && (s'.slots.nextServer == s.slots.nextServer || (t < |s.tasks| && PastGate(s.tasks[t])))
    && (s'.work.nextJob == s.work.nextJob || (t < |s.tasks| && (s.tasks[t].ReadingVoice? || s.tasks[t].Done?)))
  }

  /** The others keep their part of the invariant, so only the moving task's own part is left. */
  lemma OthersOk(s: State, s': State, t: TaskId)
    requires TasksOk(s) && Rely(s, s', t) && TaskOk(s', t, s'.tasks[t])
    ensures TasksOk(s')
  {
    forall u: nat | u < |s'.tasks|
      ensures TaskOk(s', u, s'.tasks[u])
    {
      if u != t {
        var pc := s.tasks[u];
        assert TaskOk(s, u, pc);
        OtherLockOk(s.lock, s'.lock, t, u, pc);
        OtherSlotOk(s, s', t, u, pc);
        OtherJobOk(s, s', t, u, pc);
      }
    }
  }

  // --- preservation ----------------------------------------------------------------------------

  /** All of the invariant that a step of `t` looks at. */
  ghost predicate OkFor(s: State, t: TaskId) {
    t < |s.tasks| && SlotsOk(s.slots) && WorkOk(s.work) && ControlOk(s) && TaskOk(s, t, s.tasks[t])
  }

  ghost predicate GoodStep(s: State, s': State, t: TaskId) {
    Rely(s, s', t) && OkFor(s', t)
  }

  /** Only the program counter moved, and perhaps the generation. */
  ghost predicate Quiet(s: State, s': State, t: TaskId) {
    && OnlyMoved(s, s', t)
    && s'.slots == s.slots && s'.work == s.work
    && s'.shutDown == s.shutDown && s'.closing == s.closing && s'.generation >= s.generation
  }

  lemma QuietOk(s: State, s': State, t: TaskId)
    requires OkFor(s, t) && Quiet(s, s', t) && s'.lock == s.lock && TaskOk(s', t, s'.tasks[t])
    ensures GoodStep(s, s', t)
  {
  }

  lemma ReleaseOk(s: State, s': State, t: TaskId)
    requires OkFor(s, t) && Quiet(s, s', t) && s.lock == Some(t) && s'.lock.None?
    requires s.slots.starting.None? && s.slots.spawning.None? && TaskOk(s', t, s'.tasks[t])
    ensures GoodStep(s, s', t)
  {
  }

  /** Only the program counter and the jobs moved. */
  lemma WorkedOk(s: State, s': State, t: TaskId)
    requires OkFor(s, t) && OnlyMoved(s, s', t) && s' == s.(work := s'.work, tasks := s'.tasks, idleArmed := s'.idleArmed)
    requires JobRely(s.work, s'.work, t) && WorkOk(s'.work) && TaskOk(s', t, s'.tasks[t])
    requires s'.work.nextJob == s.work.nextJob || s.tasks[t].ReadingVoice? || s.tasks[t].Done?
    ensures GoodStep(s, s', t)
  {
  }

  // the moves on the slots

  lemma HoldOk(sl: Slots, spec: Spec)
    requires SlotsOk(sl) && sl.session.None? && sl.stopping.None? && sl.spawning.None?
    ensures SlotsOk(Hold(sl, spec))
  {
  }

  lemma LaunchOk(sl: Slots, spec: Spec)
    requires SlotsOk(sl) && sl.starting == Some(spec) && sl.spawning.None?
    ensures SlotsOk(Launch(sl, spec))
  {
  }

  lemma AbandonOk(sl: Slots)
    requires SlotsOk(sl) && sl.session.None? && sl.stopping.None?
    ensures SlotsOk(Abandon(sl))
  {
  }

  lemma BecomeSessionOk(sl: Slots, server: Server)
    requires SlotsOk(sl) && sl.spawning == Some(server) && sl.session.None? && sl.stopping.None?
    ensures SlotsOk(BecomeSession(sl, server))
  {
  }

  lemma BeginStopOk(sl: Slots, t: TaskId)
    requires SlotsOk(sl) && sl.session.Some?
    ensures SlotsOk(BeginStop(sl, t))
  {
  }

  lemma EndStopOk(sl: Slots, t: TaskId, server: Server)
    requires SlotsOk(sl) && sl.stopping.Some? && sl.stopping.value.owner == t && sl.stopping.value.server == server
    ensures SlotsOk(Confirmed(sl, t, server)) && SlotsOk(Unconfirmed(sl, t, server))
  {
  }

  // loads

  lemma FailLoadOk(s: State, t: TaskId, who: LoadFor)
    requires OkFor(s, t) && s.tasks[t].Spawn? && s.tasks[t].who == who
    requires StartSlot(s.tasks[t], s.tasks[t].spec)
    ensures GoodStep(s, FailLoad(s, t, who), t)
  {
    AbandonOk(s.slots);
  }

  lemma BeginLoadOk(s: State, t: TaskId, spec: Spec, who: LoadFor)
    requires OkFor(s, t) && Cleared(s.tasks[t]) && PastGate(s.tasks[t])
    requires s.tasks[t].Preparing? || s.tasks[t].Tear?
    requires RunnerOf(s.tasks[t]) == RunnerLoading(who)
    ensures GoodStep(s, BeginLoad(s, t, spec, who), t)
  {
  }

  lemma PreparingOk(s: State, t: TaskId, c: Choice)
    requires OkFor(s, t) && s.tasks[t].Preparing?
    ensures GoodStep(s, StepPreparing(s, t, c), t)
  {
  }

  lemma AnnouncedOk(s: State, t: TaskId, spec: Spec, who: LoadFor, c: Choice)
    requires OkFor(s, t) && s.tasks[t] == Spawn(Announced, spec, who)
    ensures GoodStep(s, StepAnnounced(s, t, spec, who, c), t)
  {
  }

  lemma ClaimingOk(s: State, t: TaskId, spec: Spec, who: LoadFor, c: Choice)
    requires OkFor(s, t) && s.tasks[t] == Spawn(Claiming, spec, who)
    ensures GoodStep(s, StepClaiming(s, t, spec, who, c), t)
  {
    if c.ok { HoldOk(s.slots, spec); } else { FailLoadOk(s, t, who); }
  }

  lemma SettlingOk(s: State, t: TaskId, spec: Spec, who: LoadFor, c: Choice)
    requires OkFor(s, t) && s.tasks[t] == Spawn(Settling, spec, who)
    ensures GoodStep(s, StepSettling(s, t, spec, who, c), t)
  {
    if c.ok { LaunchOk(s.slots, spec); } else { FailLoadOk(s, t, who); }
  }

  lemma StartingOk(s: State, t: TaskId, spec: Spec, who: LoadFor, server: Server, c: Choice)
    requires OkFor(s, t) && s.tasks[t] == Spawn(Starting(server), spec, who)
    ensures GoodStep(s, StepStarting(s, t, spec, who, server, c), t)
  {
    if c.ok { BecomeSessionOk(s.slots, server); } else { FailLoadOk(s, t, who); }
  }

  lemma LoadEndedOk(s: State, t: TaskId, who: LoadFor, ok: bool, cancelled: bool)
    requires OkFor(s, t) && s.tasks[t] == LoadEnded(who, ok, cancelled)
    ensures GoodStep(s, StepLoadEnded(s, t, who, ok, cancelled), t)
  {
  }

  lemma SpawnStepOk(s: State, t: TaskId, at: SpawnStage, spec: Spec, who: LoadFor, c: Choice)
    requires OkFor(s, t) && s.tasks[t] == Spawn(at, spec, who)
    ensures StepSpawn(s, t, at, spec, who, c) == s || GoodStep(s, StepSpawn(s, t, at, spec, who, c), t)
  {
    match at
    case Announced => AnnouncedOk(s, t, spec, who, c);
    case AwaitStopping(ticket) => QuietOk(s, Goto(s, t, Spawn(Claiming, spec, who)), t);
    case Claiming => ClaimingOk(s, t, spec, who, c);
    case Settling => SettlingOk(s, t, spec, who, c);
    case Starting(server) => StartingOk(s, t, spec, who, server, c);
  }

  // teardowns

  lemma DrainingOk(s: State, t: TaskId, k: After)
    requires OkFor(s, t) && s.tasks[t] == Tear(Draining, k)
    ensures StepDraining(s, t, k) == s || GoodStep(s, StepDraining(s, t, k), t)
  {
    if s.slots.session.Some? && s.slots.stopping.None? { BeginStopOk(s.slots, t); }
  }

  lemma TerminatingOk(s: State, t: TaskId, server: Server, k: After, c: Choice)
    requires OkFor(s, t) && s.tasks[t] == Tear(Terminating(server), k)
    ensures GoodStep(s, StepTerminating(s, t, server, k, c), t)
  {
    EndStopOk(s.slots, t, server);
  }

  lemma LoadTookDownOk(s: State, t: TaskId, confirmed: bool)
    requires OkFor(s, t) && s.tasks[t] == Tear(TookDown(confirmed), ThenLoad)
    ensures GoodStep(s, StepLoadTookDown(s, t, confirmed), t)
  {
    var s' := StepLoadTookDown(s, t, confirmed);
    if confirmed { QuietOk(s, s', t); } else { ReleaseOk(s, s', t); }
  }

  lemma RespawnTookDownOk(s: State, t: TaskId, job: JobId, spec: Spec, confirmed: bool)
    requires OkFor(s, t) && s.tasks[t] == Tear(TookDown(confirmed), ThenRespawn(job, spec))
    ensures GoodStep(s, StepRespawnTookDown(s, t, job, spec, confirmed), t)
  {
    if confirmed { BeginLoadOk(s, t, spec, ForJob(job)); }
  }

  lemma UnloadTookDownOk(s: State, t: TaskId, why: UnloadFor, confirmed: bool)
    requires OkFor(s, t) && s.tasks[t] == Tear(TookDown(confirmed), ThenUnload(why))
    ensures GoodStep(s, StepUnloadTookDown(s, t, why, confirmed), t)
  {
    if confirmed {
      QuietOk(s, Goto(s.(spec := None, idleArmed := false, modelState := Unloaded), t, Unload(UnloadEnding, why)), t);
    } else {
      ReleaseOk(s, Goto(Release(s), t, Done), t);
    }
  }

  lemma KeepTookDownOk(s: State, t: TaskId, generation: nat, keep: KeepFor, confirmed: bool)
    requires OkFor(s, t) && s.tasks[t] == Tear(TookDown(confirmed), ThenKeep(generation, keep))
    ensures GoodStep(s, StepKeepTookDown(s, t, generation, keep, confirmed), t)
  {
  }

  lemma TookDownOk(s: State, t: TaskId, k: After, confirmed: bool)
    requires OkFor(s, t) && s.tasks[t] == Tear(TookDown(confirmed), k)
    ensures GoodStep(s, StepTookDown(s, t, k, confirmed), t)
  {
    match k
    case ThenLoad => LoadTookDownOk(s, t, confirmed);
    case ThenRespawn(job, spec) => RespawnTookDownOk(s, t, job, spec, confirmed);
    case ThenUnload(why) => UnloadTookDownOk(s, t, why, confirmed);
    case ThenShutdown =>
    case ThenKeep(generation, keep) => KeepTookDownOk(s, t, generation, keep, confirmed);
  }

  // unloads

  /** The lock holder is about to begin something new: no load is under way. */
  ghost predicate Holding(s: State, t: TaskId) {
    && t < |s.tasks| && s.lock == Some(t)
    && SlotsOk(s.slots) && WorkOk(s.work)
    && s.slots.starting.None? && s.slots.spawning.None?
    && (s.shutDown ==> s.closing && Empty(s.slots))
    && (s.slots.stopping.Some? ==> s.slots.stopping.value.owner < |s.tasks| && s.slots.stopping.value.owner != t)
  }

  lemma BeginUnloadOk(s: State, t: TaskId, why: UnloadFor)
    requires Holding(s, t)
    ensures Quiet(s, BeginUnload(s, t, why), t) && BeginUnload(s, t, why).lock == s.lock
    ensures OkFor(BeginUnload(s, t, why), t)
  {
  }

  lemma UnloadAnnouncedOk(s: State, t: TaskId, why: UnloadFor, c: Choice)
    requires OkFor(s, t) && s.tasks[t] == Unload(UnloadAnnounced, why)
    ensures GoodStep(s, StepUnloadAnnounced(s, t, why, c), t)
  {
    if c.ok { QuietOk(s, Goto(s, t, Tear(Draining, ThenUnload(why))), t); } else { ReleaseOk(s, Goto(Release(s), t, Done), t); }
  }

  lemma UnloadEndingOk(s: State, t: TaskId, why: UnloadFor)
    requires OkFor(s, t) && s.tasks[t] == Unload(UnloadEnding, why)
    ensures GoodStep(s, StepUnloadEnding(s, t, why), t)
  {
    if why.UnloadRequest? && s.slots.stopping.Some? {
      QuietOk(s, Goto(s, t, Unload(UnloadWaiting(s.slots.stopping.value.ticket), why)), t);
    } else {
      ReleaseOk(s, Goto(Release(s), t, Done), t);
    }
  }

  lemma UnloadWaitingOk(s: State, t: TaskId, ticket: nat, why: UnloadFor)
    requires OkFor(s, t) && s.tasks[t] == Unload(UnloadWaiting(ticket), why)
    ensures StepUnloadWaiting(s, t, ticket) == s || GoodStep(s, StepUnloadWaiting(s, t, ticket), t)
  {
  }

  // the moves on the jobs

  lemma FinishOk(w: Work, job: JobId, result: JobState)
    requires WorkOk(w) && Terminal(result)
    requires result.Completed? ==> job in w.saved
    requires result.Cancelled? ==> job in w.requested && job !in w.saved
    ensures WorkOk(Finish(w, job, result)) && !Live(Finish(w, job, result).table, job) && Settled(w, Finish(w, job, result)) && KeepsLive(w, Finish(w, job, result))
  {
    FinishedKeepsLaw(w.table, job, result);
  }

  /** Only a job's own runner ends it, or a cancel of it that was registered, as cancelled. */
  lemma FinishRelyOk(w: Work, t: TaskId, job: JobId, result: JobState)
    requires WorkOk(w) && Terminal(result)
    requires (job in w.requested && result.Cancelled?) || (job in w.runner && w.runner[job] == t)
    ensures JobRely(w, Finish(w, job, result), t)
  {
    FinishedKeepsLaw(w.table, job, result);
  }

  lemma RequestOk(w: Work, job: JobId)
    requires WorkOk(w) && job < w.nextJob
    ensures WorkOk(Request(w, job))
  {
  }

  lemma SetPhaseOk(w: Work, t: TaskId, job: JobId, phase: Phase)
    requires WorkOk(w) && (phase.Saving? || job !in w.saved) && job in w.runner && w.runner[job] == t
    ensures WorkOk(SetPhase(w, job, phase)) && JobRely(w, SetPhase(w, job, phase), t)
    ensures forall j: JobId :: Live(SetPhase(w, job, phase).table, j) <==> Live(w.table, j)
  {
    PhaseSetKeepsLaw(w.table, job, phase);
  }

  lemma PostOk(w: Work, t: TaskId, job: JobId)
    requires WorkOk(w) && job !in w.saved && job < w.nextJob && job !in w.requested
    requires job in w.runner && w.runner[job] == t
    ensures WorkOk(Post(w, job)) && JobRely(w, Post(w, job), t)
  {
    SetPhaseOk(w, t, job, Running);
  }

  lemma SaveClipOk(w: Work, t: TaskId, job: JobId)
    requires WorkOk(w) && job < w.nextJob && Live(w.table, job) && job !in w.requested
    requires job in w.runner && w.runner[job] == t
    ensures WorkOk(SaveClip(w, job)) && JobRely(w, SaveClip(w, job), t)
  {
    SetPhaseOk(w, t, job, Saving);
  }

  lemma RegisterOk(w: Work, t: TaskId)
    requires WorkOk(w) && w.table.active.None?
    ensures WorkOk(Register(w, t)) && Live(Register(w, t).table, w.nextJob) && Settled(w, Register(w, t)) && KeepsLive(w, Register(w, t))
    ensures forall j: JobId :: j < w.nextJob ==> !Live(Register(w, t).table, j) && !Live(w.table, j)
  {
    RegisteredKeepsLaw(w.table, w.nextJob);
    assert forall j: JobId :: Live(w.table, j) ==> w.table.active == Some(j);
    assert Registered(w.table, w.nextJob).active == Some(w.nextJob);
  }

  // cancels

  /** The jobs as `cancelAudioJob` leaves them at its first await. */
  ghost predicate CancelRely(w: Work, w': Work) {
    || w' == w
    || (&& w'.nextJob == w.nextJob && w'.saved == w.saved && w'.posted == w.posted && w'.runner == w.runner
        && w.requested <= w'.requested && Settled(w, w') && KeepsLive(w, w')
        && (forall j: JobId :: Live(w'.table, j) ==> Live(w.table, j) && w'.table.jobs[j].phase == w.table.jobs[j].phase)
        && (forall j: JobId :: Live(w.table, j) && !Live(w'.table, j) ==>
              j in w'.requested && (j in w'.table.jobs ==> w'.table.jobs[j].state.Cancelled?)))
  }

  /** What `cancelAudioJob` does up to its first await, whoever calls it. */
  ghost predicate CancelEntered(s: State, s': State, t: TaskId, caller: Caller) {
    && OnlyMoved(s, s', t)
    && s' == s.(work := s'.work, tasks := s'.tasks)
    && WorkOk(s'.work) && CancelRely(s.work, s'.work)
    && (var pc := s'.tasks[t];
        && CancelOk(s'.work, s'.generation, pc)
        && (|| (pc.CancelSettled? && pc.caller == caller)
            || (pc.AwaitRunner? && pc.caller == caller)
            || (pc.Tear? && pc.tear.Draining? && pc.k.ThenKeep? && pc.k.keep.CancelOf? && pc.k.keep.caller == caller)))
  }

  lemma CancelRequestedOk(s: State, t: TaskId, job: JobId, caller: Caller, pc: Pc)
    requires t < |s.tasks| && WorkOk(s.work) && Live(s.work.table, job)
    requires pc == AwaitRunner(job, caller) ||
             (pc == Tear(Draining, ThenKeep(s.generation, CancelOf(job, caller))) && job !in s.work.saved)
    ensures CancelEntered(s, Goto(s.(work := Request(s.work, job)), t, pc), t, caller)
  {
    RequestOk(s.work, job);
  }

  lemma CancelAtOnceOk(s: State, t: TaskId, job: JobId, caller: Caller)
    requires t < |s.tasks| && WorkOk(s.work) && Live(s.work.table, job) && job !in s.work.saved
    ensures CancelEntered(s, Goto(s.(work := Finish(Request(s.work, job), job, Cancelled)), t,
                                  CancelSettled(job, caller, Some(true))), t, caller)
  {
    var w := Request(s.work, job);
    RequestOk(s.work, job);
    FinishOk(w, job, Cancelled);
    FinishRelyOk(w, t, job, Cancelled);
  }

  lemma CancelLiveOk(s: State, t: TaskId, job: JobId, caller: Caller)
    requires t < |s.tasks| && WorkOk(s.work) && Live(s.work.table, job)
    ensures CancelEntered(s, CancelLive(s, t, job, caller), t, caller)
  {
    var phase := s.work.table.jobs[job].phase;
    if phase.Running? {
      CancelRequestedOk(s, t, job, caller, Tear(Draining, ThenKeep(s.generation, CancelOf(job, caller))));
    } else if phase.Saving? {
      CancelRequestedOk(s, t, job, caller, AwaitRunner(job, caller));
    } else {
      CancelAtOnceOk(s, t, job, caller);
    }
  }

  lemma EnterCancelOk(s: State, t: TaskId, job: JobId, caller: Caller)
    requires t < |s.tasks| && WorkOk(s.work)
    ensures CancelEntered(s, EnterCancel(s, t, job, caller), t, caller)
  {
    if Live(s.work.table, job) {
      CancelLiveOk(s, t, job, caller);
    }
  }

  /** A lock holder that cancels the active job first. */
  lemma HolderCancelOk(s: State, t: TaskId, job: JobId, caller: Caller)
    requires Holding(s, t) && !caller.Client? && (caller.ByLoad? ==> !s.shutDown)
    ensures OkFor(EnterCancel(s, t, job, caller), t)
  {
    EnterCancelOk(s, t, job, caller);
  }

  lemma CancelKeptSpecOk(s: State, t: TaskId, job: JobId, caller: Caller)
    requires OkFor(s, t) && s.tasks[t] == KeptSpec(CancelOf(job, caller), true)
    ensures GoodStep(s, Goto(s.(work := Finish(s.work, job, Cancelled)), t, CancelSettled(job, caller, Some(true))), t)
  {
    FinishOk(s.work, job, Cancelled);
    FinishRelyOk(s.work, t, job, Cancelled);
    WorkedOk(s, Goto(s.(work := Finish(s.work, job, Cancelled)), t, CancelSettled(job, caller, Some(true))), t);
  }

  lemma KeptSpecOk(s: State, t: TaskId, keep: KeepFor, confirmed: bool)
    requires OkFor(s, t) && s.tasks[t] == KeptSpec(keep, confirmed)
    ensures GoodStep(s, StepKeptSpec(s, t, keep, confirmed), t)
  {
    match keep
    case CancelOf(job, caller) =>
      if confirmed { CancelKeptSpecOk(s, t, job, caller); }
      else { QuietOk(s, Goto(s, t, CancelSettled(job, caller, None)), t); }
    case CrashOf(job) => QuietOk(s, Goto(s, t, Runs(RunEnding(Failed), job)), t);
  }

  lemma AwaitRunnerOk(s: State, t: TaskId, job: JobId, caller: Caller)
    requires OkFor(s, t) && TasksOk(s) && s.tasks[t] == AwaitRunner(job, caller)
    ensures StepAwaitRunner(s, t, job, caller) == s || GoodStep(s, StepAwaitRunner(s, t, job, caller), t)
  {
    var s' := StepAwaitRunner(s, t, job, caller);
    if s' != s {
      assert TaskOk(s, s.work.runner[job], Runs(RunnerDone, job));
      QuietOk(s, s', t);
    }
  }

  lemma CancelSettledOk(s: State, t: TaskId, caller: Caller, c: Choice)
    requires OkFor(s, t) && s.tasks[t].CancelSettled? && s.tasks[t].caller == caller
    ensures StepCancelSettled(s, t, caller, c) == s || GoodStep(s, StepCancelSettled(s, t, caller, c), t)
  {
    var s' := StepCancelSettled(s, t, caller, c);
    match caller
    case Client =>
    case ByLoad => QuietOk(s, s', t);
    case ByUnload => BeginUnloadOk(s, t, UnloadRequest); QuietOk(s, s', t);
    case ByActivation =>
      if c.alt { ReleaseOk(s, s', t); } else { BeginUnloadOk(s, t, EngineUpdate); QuietOk(s, s', t); }
  }

  // runners

  /** A runner that has not saved gives up outside the lock. */
  lemma GivesUpOk(s: State, t: TaskId, job: JobId, result: JobState)
    requires OkFor(s, t) && RunnerOf(s.tasks[t]) == Some(job) && !HoldsLock(s.tasks[t]) && BeforeSaving(s.work, job)
    requires !s.tasks[t].Tear?
    requires result.Failed? || (result.Cancelled? && job in s.work.requested)
    ensures GoodStep(s, Goto(s, t, Runs(RunEnding(result), job)), t)
  {
    QuietOk(s, Goto(s, t, Runs(RunEnding(result), job)), t);
  }

  /** A runner that has not saved goes on to another stage before saving. */
  lemma GoesOnOk(s: State, t: TaskId, job: JobId, at: RunStage)
    requires OkFor(s, t) && RunnerOf(s.tasks[t]) == Some(job) && !HoldsLock(s.tasks[t]) && BeforeSaving(s.work, job)
    requires !s.tasks[t].Tear?
    requires at.RunBack? || at.RunReady? || at.Posting? || at.Diagnosing?
    ensures GoodStep(s, Goto(s, t, Runs(at, job)), t)
  {
    QuietOk(s, Goto(s, t, Runs(at, job)), t);
  }

  lemma RegisterJobOk(s: State, t: TaskId)
    requires OkFor(s, t) && (s.tasks[t].ReadingVoice? || s.tasks[t].Done?) && s.work.table.active.None?
    ensures GoodStep(s, RegisterJob(s, t), t)
  {
    RegisterOk(s.work, t);
    WorkedOk(s, RegisterJob(s, t), t);
  }

  lemma QueuesOk(s: State, t: TaskId, job: JobId)
    requires OkFor(s, t) && s.tasks[t] == Runs(RunStart, job)
    ensures GoodStep(s, Goto(s.(work := SetPhase(s.work, job, Loading)), t, WantLock(RespawnOp(job))), t)
  {
    SetPhaseOk(s.work, t, job, Loading);
    WorkedOk(s, Goto(s.(work := SetPhase(s.work, job, Loading)), t, WantLock(RespawnOp(job))), t);
  }

  lemma RunStartOk(s: State, t: TaskId, job: JobId)
    requires OkFor(s, t) && s.tasks[t] == Runs(RunStart, job)
    ensures GoodStep(s, StepRunStart(s, t, job), t)
  {
    if View(s.slots).Some? {
      GoesOnOk(s, t, job, RunReady(View(s.slots).value));
    } else if job in s.work.requested {
      GivesUpOk(s, t, job, Cancelled);
    } else {
      QueuesOk(s, t, job);
    }
  }

  lemma RunBackOk(s: State, t: TaskId, job: JobId)
    requires OkFor(s, t) && s.tasks[t] == Runs(RunBack, job)
    ensures GoodStep(s, StepRunBack(s, t, job), t)
  {
    if View(s.slots).Some? {
      GoesOnOk(s, t, job, RunReady(View(s.slots).value));
    } else {
      GivesUpOk(s, t, job, Failed);
    }
  }

  lemma RunReadyOk(s: State, t: TaskId, job: JobId, server: Server)
    requires OkFor(s, t) && s.tasks[t] == Runs(RunReady(server), job)
    ensures GoodStep(s, StepRunReady(s, t, job, server), t)
  {
    if job in s.work.requested {
      GivesUpOk(s, t, job, Cancelled);
    } else {
      PostOk(s.work, t, job);
      WorkedOk(s, Goto(s.(work := Post(s.work, job)), t, Runs(Posting(server), job)), t);
    }
  }

  lemma LoseServerOk(s: State, t: TaskId, job: JobId, server: Server)
    requires OkFor(s, t) && (s.tasks[t] == Runs(Posting(server), job) || s.tasks[t] == Runs(Diagnosing(server), job))
    ensures GoodStep(s, LoseServer(s, t, job, server), t)
  {
    if s.slots.session == Some(server) {
      QuietOk(s, Goto(s, t, Tear(Draining, ThenKeep(s.generation, CrashOf(job)))), t);
    } else {
      GivesUpOk(s, t, job, Failed);
    }
  }

  lemma AnsweredOk(s: State, t: TaskId, job: JobId, server: Server)
    requires OkFor(s, t) && s.tasks[t] == Runs(Posting(server), job) && job !in s.work.requested
    ensures GoodStep(s, Goto(s.(work := SaveClip(s.work, job)), t, Runs(SavingClip, job)), t)
  {
    SaveClipOk(s.work, t, job);
    WorkedOk(s, Goto(s.(work := SaveClip(s.work, job)), t, Runs(SavingClip, job)), t);
  }

  lemma PostingOk(s: State, t: TaskId, job: JobId, server: Server, c: Choice)
    requires OkFor(s, t) && s.tasks[t] == Runs(Posting(server), job)
    ensures GoodStep(s, StepPosting(s, t, job, server, c), t)
  {
    if job in s.work.requested {
      GivesUpOk(s, t, job, Cancelled);
    } else if c.ok && c.alt {
      GivesUpOk(s, t, job, Failed);
    } else if c.ok {
      AnsweredOk(s, t, job, server);
    } else if c.alt || server.id in s.slots.exited {
      LoseServerOk(s, t, job, server);
    } else {
      GoesOnOk(s, t, job, Diagnosing(server));
    }
  }

  lemma SavingClipOk(s: State, t: TaskId, job: JobId, result: JobState)
    requires OkFor(s, t) && s.tasks[t] == Runs(SavingClip, job) && (result.Completed? || result.Failed?)
    ensures GoodStep(s, Goto(s, t, Runs(RunEnding(result), job)), t)
  {
    QuietOk(s, Goto(s, t, Runs(RunEnding(result), job)), t);
  }

  lemma RunEndingOk(s: State, t: TaskId, job: JobId, result: JobState)
    requires OkFor(s, t) && s.tasks[t] == Runs(RunEnding(result), job)
    ensures GoodStep(s, StepRunEnding(s, t, job, result), t)
  {
    FinishOk(s.work, job, result);
    FinishRelyOk(s.work, t, job, result);
    EndedOk(s, t, job, result);
    WorkedOk(s, StepRunEnding(s, t, job, result), t);
  }

  lemma EndedOk(s: State, t: TaskId, job: JobId, result: JobState)
    requires OkFor(s, t) && s.tasks[t] == Runs(RunEnding(result), job) && !Live(Finish(s.work, job, result).table, job)
    ensures var s' := StepRunEnding(s, t, job, result); OnlyMoved(s, s', t) && TaskOk(s', t, s'.tasks[t])
  {
  }

  lemma ReadingVoiceOk(s: State, t: TaskId, spec: Spec, c: Choice)
    requires OkFor(s, t) && s.tasks[t] == ReadingVoice(spec)
    ensures GoodStep(s, StepReadingVoice(s, t, spec, c), t)
  {
    if !c.ok || s.closing || s.spec != Some(spec) || s.work.table.active.Some? {
      QuietOk(s, Goto(s, t, Done), t);
    } else {
      RegisterJobOk(s, t);
    }
  }

  lemma RunsStepOk(s: State, t: TaskId, at: RunStage, job: JobId, c: Choice)
    requires OkFor(s, t) && s.tasks[t] == Runs(at, job)
    ensures StepRuns(s, t, at, job, c) == s || GoodStep(s, StepRuns(s, t, at, job, c), t)
  {
    match at
    case RunStart => RunStartOk(s, t, job);
    case RunBack => RunBackOk(s, t, job);
    case RunReady(server) => RunReadyOk(s, t, job, server);
    case Posting(server) => PostingOk(s, t, job, server, c);
    case Diagnosing(server) => LoseServerOk(s, t, job, server);
    case SavingClip => SavingClipOk(s, t, job, if c.ok then Completed else Failed);
    case RunEnding(result) => RunEndingOk(s, t, job, result);
    case RunnerDone =>
  }

  // the lock

  /** The lock passes to `t`, which begins something as `s1` and is at its first await in `s'`. */
  ghost predicate Begins(s: State, s1: State, s': State, t: TaskId) {
    && s1.slots == s.slots && s1.work == s.work && s1.closing == s.closing && s1.shutDown == s.shutDown
    && s1.tasks == s.tasks && s1.generation >= s.generation && s1.lock == Some(t)
    && s'.slots == s.slots && s'.lock == s1.lock && s'.closing == s.closing && s'.shutDown == s.shutDown
    && s'.generation >= s1.generation && OnlyMoved(s1, s', t) && CancelRely(s.work, s'.work)
  }

  lemma GrantedOk(s: State, s1: State, s': State, t: TaskId)
    requires OkFor(s, t) && s.lock.None? && Begins(s, s1, s', t) && OkFor(s', t)
    ensures GoodStep(s, s', t)
  {
  }

  lemma GrantCancelOk(s: State, s1: State, t: TaskId, job: JobId, caller: Caller)
    requires OkFor(s, t) && s.lock.None? && !s.tasks[t].Tear? && Begins(s, s1, s1, t) && !caller.Client? && (caller.ByLoad? ==> !s.shutDown)
    ensures GoodStep(s, EnterCancel(s1, t, job, caller), t)
  {
    HolderCancelOk(s1, t, job, caller);
    EnterCancelOk(s1, t, job, caller);
    GrantedOk(s, s1, EnterCancel(s1, t, job, caller), t);
  }

  lemma GrantUnloadingOk(s: State, s1: State, t: TaskId, why: UnloadFor)
    requires OkFor(s, t) && s.lock.None? && !s.tasks[t].Tear? && Begins(s, s1, s1, t)
    ensures GoodStep(s, BeginUnload(s1, t, why), t)
  {
    BeginUnloadOk(s1, t, why);
    GrantedOk(s, s1, BeginUnload(s1, t, why), t);
  }

  /** The granted task starts with a teardown. */
  lemma GrantTearOk(s: State, s1: State, t: TaskId, k: After)
    requires OkFor(s, t) && s.lock.None? && Begins(s, s1, s1, t)
    requires (k.ThenLoad? || k.ThenRespawn? ==> !s.shutDown) && (k.ThenShutdown? ==> s.closing)
    requires RunnerDuring(k) == RunnerOf(s.tasks[t]) && s.tasks[t].WantLock? && !k.ThenKeep?
    ensures GoodStep(s, Goto(s1, t, Tear(Draining, k)), t)
  {
    GrantedOk(s, s1, Goto(s1, t, Tear(Draining, k)), t);
  }

  /** The granted task has nothing to do: the lock is free again at once. */
  lemma GrantQuitsOk(s: State, t: TaskId)
    requires OkFor(s, t) && s.lock.None? && s.tasks[t].WantLock?
    ensures GoodStep(s, Goto(s, t, Done), t)
  {
    QuietOk(s, Goto(s, t, Done), t);
  }

  lemma EnterLoadOk(s: State, t: TaskId)
    requires OkFor(s, t) && s.lock.None? && s.tasks[t] == WantLock(LoadOp) && !s.shutDown
    ensures GoodStep(s, EnterLoad(s, t), t)
  {
    var s1 := s.(lock := Some(t), loading := Some(t), generation := s.generation + 1);
    if s.work.table.active.Some? {
      GrantCancelOk(s, s1, t, s.work.table.active.value, ByLoad);
      assert EnterLoad(s, t) == EnterCancel(s1, t, s.work.table.active.value, ByLoad);
    } else {
      GrantTearOk(s, s1, t, ThenLoad);
      assert EnterLoad(s, t) == Goto(s1, t, Tear(Draining, ThenLoad));
    }
  }

  lemma GrantLoadOk(s: State, t: TaskId)
    requires OkFor(s, t) && s.lock.None? && s.tasks[t] == WantLock(LoadOp)
    ensures GoodStep(s, GrantLoad(s, t), t)
  {
    if s.closing { GrantQuitsOk(s, t); } else { EnterLoadOk(s, t); }
  }

  lemma GrantUnloadOk(s: State, t: TaskId)
    requires OkFor(s, t) && s.lock.None? && s.tasks[t] == WantLock(UnloadOp)
    ensures GoodStep(s, GrantUnload(s, t), t)
  {
    var s1 := s.(lock := Some(t));
    if s.work.table.active.Some? {
      GrantCancelOk(s, s1, t, s.work.table.active.value, ByUnload);
    } else {
      GrantUnloadingOk(s, s1, t, UnloadRequest);
    }
  }

  lemma GrantActivateOk(s: State, t: TaskId, c: Choice)
    requires OkFor(s, t) && s.lock.None? && s.tasks[t] == WantLock(ActivateOp)
    ensures GoodStep(s, GrantActivate(s, t, c), t)
  {
    var s1 := s.(lock := Some(t));
    if s.work.table.active.Some? {
      GrantCancelOk(s, s1, t, s.work.table.active.value, ByActivation);
    } else if c.alt {
      GrantQuitsOk(s, t);
    } else {
      GrantUnloadingOk(s, s1, t, EngineUpdate);
    }
  }

  lemma GrantRespawnOk(s: State, t: TaskId, job: JobId)
    requires OkFor(s, t) && s.lock.None? && s.tasks[t] == WantLock(RespawnOp(job))
    ensures GoodStep(s, GrantRespawn(s, t, job), t)
  {
    if job in s.work.requested {
      GivesUpOk(s, t, job, Cancelled);
    } else if s.closing || (View(s.slots).None? && s.spec.None?) {
      GivesUpOk(s, t, job, Failed);
    } else if View(s.slots).Some? {
      GoesOnOk(s, t, job, RunBack);
    } else {
      GrantTearOk(s, s.(lock := Some(t)), t, ThenRespawn(job, s.spec.value));
    }
  }

  lemma GrantOk(s: State, t: TaskId, op: LockOp, c: Choice)
    requires OkFor(s, t) && s.tasks[t] == WantLock(op)
    ensures StepGrant(s, t, op, c) == s || GoodStep(s, StepGrant(s, t, op, c), t)
  {
    if s.lock.None? {
      match op
      case LoadOp => GrantLoadOk(s, t);
      case UnloadOp => GrantUnloadOk(s, t);
      case ActivateOp => GrantActivateOk(s, t, c);
      case ShutdownOp => GrantTearOk(s, s.(lock := Some(t)), t, ThenShutdown);
      case RespawnOp(job) => GrantRespawnOk(s, t, job);
    }
  }

  // every step

  lemma StepTaskOk(s: State, t: TaskId, c: Choice)
    requires Inv(s) && t < |s.tasks|
    ensures StepTask(s, t, c) == s || GoodStep(s, StepTask(s, t, c), t)
  {
    assert TaskOk(s, t, s.tasks[t]);
    match s.tasks[t]
    case WantLock(op) => GrantOk(s, t, op, c);
    case Tear(Draining, k) => DrainingOk(s, t, k);
    case Tear(Terminating(server), k) => TerminatingOk(s, t, server, k, c);
    case Tear(TookDown(confirmed), k) => TookDownOk(s, t, k, confirmed);
    case Preparing => PreparingOk(s, t, c);
    case Spawn(at, spec, who) => SpawnStepOk(s, t, at, spec, who, c);
    case LoadEnded(who, ok, cancelled) => LoadEndedOk(s, t, who, ok, cancelled);
    case Unload(UnloadAnnounced, why) => UnloadAnnouncedOk(s, t, why, c);
    case Unload(UnloadEnding, why) => UnloadEndingOk(s, t, why);
    case Unload(UnloadWaiting(ticket), why) => UnloadWaitingOk(s, t, ticket, why);
    case KeptSpec(keep, confirmed) => KeptSpecOk(s, t, keep, confirmed);
    case AwaitRunner(job, caller) => AwaitRunnerOk(s, t, job, caller);
    case CancelSettled(_, caller, _) => CancelSettledOk(s, t, caller, c);
    case ReadingVoice(spec) => ReadingVoiceOk(s, t, spec, c);
    case Runs(at, job) => RunsStepOk(s, t, at, job, c);
    case Done =>
  }

  lemma GoodStepOk(s: State, s': State, t: TaskId)
    requires Inv(s) && GoodStep(s, s', t)
    ensures Inv(s')
  {
    OthersOk(s, s', t);
  }

  // calls from outside, and the world

  /** A new task that holds nothing and runs nothing. */
  lemma NewTaskOk(s: State, pc: Pc)
    requires Inv(s) && !HoldsLock(pc) && !Cleared(pc) && !PastGate(pc) && RunnerOf(pc).None? && CancelsRunning(pc).None?
    requires pc.WantLock? || pc.ReadingVoice? || pc.Done?
    requires pc == WantLock(ShutdownOp) ==> s.closing
    ensures Inv(WithTask(s, pc)) && OkFor(WithTask(s, pc), |s.tasks|)
  {
    OthersOk(s, WithTask(s, pc), |s.tasks|);
  }

  lemma ClientCancelOk(s: State, t: TaskId, job: JobId)
    requires OkFor(s, t) && s.tasks[t].Done?
    ensures GoodStep(s, EnterCancel(s, t, job, Client), t)
  {
    EnterCancelOk(s, t, job, Client);
  }

  lemma CallCancelOk(s: State, job: JobId)
    requires Inv(s)
    ensures Inv(Next(s, CallCancel(job)))
  {
    var t := |s.tasks|;
    var s1 := WithTask(s, Done);
    NewTaskOk(s, Done);
    ClientCancelOk(s1, t, job);
    GoodStepOk(s1, EnterCancel(s1, t, job, Client), t);
  }

  /** Shutdown aborts the load in progress and closes the gate. */
  lemma GateClosedOk(s: State)
    requires Inv(s)
    ensures Inv(AbortLoading(s).(closing := true))
  {
    var s' := AbortLoading(s).(closing := true);
    forall u: nat | u < |s'.tasks|
      ensures TaskOk(s', u, s'.tasks[u])
    {
      assert TaskOk(s, u, s.tasks[u]);
    }
  }

  /** ... and requests the cancel of the active job. */
  lemma RequestedOk(s: State, job: JobId)
    requires Inv(s) && Live(s.work.table, job)
    ensures Inv(s.(work := Request(s.work, job)))
  {
    var s' := s.(work := Request(s.work, job));
    RequestOk(s.work, job);
    assert JobRely(s.work, s'.work, |s.tasks|);
    forall u: nat | u < |s'.tasks|
      ensures TaskOk(s', u, s'.tasks[u])
    {
      assert TaskOk(s, u, s.tasks[u]);
      OtherJobOk(s, s', |s.tasks|, u, s.tasks[u]);
    }
  }

  lemma CallShutdownOk(s: State)
    requires Inv(s)
    ensures Inv(Next(s, CallShutdown))
  {
    var s1 := AbortLoading(s).(closing := true);
    GateClosedOk(s);
    if s.work.table.active.Some? {
      var job := s.work.table.active.value;
      assert Live(s1.work.table, job);
      RequestedOk(s1, job);
      NewTaskOk(s1.(work := Request(s1.work, job)), WantLock(ShutdownOp));
    } else {
      NewTaskOk(s1, WantLock(ShutdownOp));
    }
  }

  lemma CallStartOk(s: State, withVoice: bool)
    requires Inv(s)
    ensures Inv(Next(s, CallStart(withVoice)))
  {
    if s.closing || s.spec.None? || s.work.table.active.Some? {
    } else if withVoice {
      NewTaskOk(s, ReadingVoice(s.spec.value));
    } else {
      NewTaskOk(s, Done);
      var s1 := WithTask(s, Done);
      RegisterJobOk(s1, |s.tasks|);
      GoodStepOk(s1, RegisterJob(s1, |s.tasks|), |s.tasks|);
    }
  }

  lemma IdleTickOk(s: State)
    requires Inv(s)
    ensures Inv(Next(s, IdleTick))
  {
    if !s.idleArmed || s.work.table.active.Some? || s.lock.Some? {
    } else if s.spec.None? {
      var s' := s.(idleArmed := false);
      assert forall u: nat :: u < |s.tasks| ==> TaskOk(s, u, s.tasks[u]) && TaskOk(s', u, s.tasks[u]);
    } else {
      NewTaskOk(s, Done);
      var t := |s.tasks|;
      var s1 := WithTask(s, Done);
      GrantUnloadingOk(s1, s1.(lock := Some(t)), t, IdleUnload);
      GoodStepOk(s1, BeginUnload(s1.(lock := Some(t)), t, IdleUnload), t);
    }
  }

  /** A server that dies, or whose exit is seen, changes no slot. */
  lemma WorldOk(s: State, sl: Slots)
    requires Inv(s) && SlotsOk(sl) && sl.live <= s.slots.live
    requires sl == s.slots.(live := sl.live, exited := sl.exited)
    ensures Inv(s.(slots := sl))
  {
    var s' := s.(slots := sl);
    forall u: nat | u < |s'.tasks|
      ensures TaskOk(s', u, s'.tasks[u])
    {
      assert TaskOk(s, u, s.tasks[u]);
    }
  }

  /** Every action keeps the invariant. */
  lemma NextOk(s: State, a: Action)
    requires Inv(s)
    ensures Inv(Next(s, a))
  {
    match a
    case CallLoad => NewTaskOk(s, WantLock(LoadOp));
    case CallUnload =>
      var s1 := AbortLoading(s);
      assert forall u: nat :: u < |s.tasks| ==> TaskOk(s, u, s.tasks[u]) && TaskOk(s1, u, s.tasks[u]);
      NewTaskOk(s1, WantLock(UnloadOp));
    case CallActivate => NewTaskOk(s, WantLock(ActivateOp));
    case CallShutdown => CallShutdownOk(s);
    case CallCancel(job) => CallCancelOk(s, job);
    case CallStart(withVoice) => CallStartOk(s, withVoice);
    case IdleTick => IdleTickOk(s);
    case Run(t, c) =>
      if t < |s.tasks| {
        StepTaskOk(s, t, c);
        if StepTask(s, t, c) != s { GoodStepOk(s, StepTask(s, t, c), t); }
      }
    case ServerDies(id) => WorldOk(s, s.slots.(live := s.slots.live - {id}));
    case ExitSeen(id) =>
      if id < s.slots.nextServer && id !in s.slots.live { WorldOk(s, s.slots.(exited := s.slots.exited + {id})); }
  }

  /** Every reachable state satisfies the invariant. */
  lemma {:induction false} ExecOk(s: State, acts: seq<Action>)
    requires Inv(s)
    ensures Inv(Exec(s, acts))
    decreases |acts|
  {
    if acts != [] {
      NextOk(s, acts[0]);
      ExecOk(Next(s, acts[0]), acts[1..]);
    }
  }
}
