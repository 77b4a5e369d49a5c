// The audio session and job protocol (src/audio/session.ts, jobs.ts, service.ts, idle.ts) as a
// state machine. Every async function is a task whose program counter `Pc` names the await it is
// suspended at; one step of the machine runs one task from one await to the next. Any task may take
// the next step, so a run is any interleaving. What the source leaves to its environment (a spawn
// that fails, a termination that is not confirmed, a server that dies) is the `Choice` of a step or
// an action of its own.

module AudioProtocol {
  import opened Options
  import opened AudioJobs

  /** A spec is an object: its identity is its number. */
  type Spec = nat

  type TaskId = nat

  /** One `audiocpp_server` process, ever. */
  datatype Server = Server(id: nat, spec: Spec)

  /** `state.stopping`: which server, which promise (`ticket`), whose teardown. */
  datatype Stop = Stop(server: Server, ticket: nat, owner: TaskId)

  datatype ModelState = Unloaded | LoadingModel | Loaded | Unloading | LoadFailed

  // --- who is doing what -----------------------------------------------------------------------

  /** Who called `cancelAudioJob`: a client, or a holder of the load lock. */
  datatype Caller = Client | ByLoad | ByUnload | ByActivation

  /** Which operation runs `unloadSession`. */
  datatype UnloadFor = UnloadRequest | IdleUnload | EngineUpdate

  /** Why `stopKeepingSpec` runs: a cancel while generating, or a runner that lost its server. */
  datatype KeepFor = CancelOf(job: JobId, caller: Caller) | CrashOf(job: JobId)

  /** What follows `takeDownSession`. */
  datatype After =
    | ThenLoad
    | ThenRespawn(job: JobId, spec: Spec)
    | ThenUnload(unload: UnloadFor)
    | ThenShutdown
    | ThenKeep(generation: nat, keep: KeepFor)

  datatype LoadFor = ForRequest | ForJob(job: JobId)

  /** The operations that queue on the load lock. */
  datatype LockOp = LoadOp | UnloadOp | ActivateOp | ShutdownOp | RespawnOp(job: JobId)

  /** `takeDownSession`: waiting for an older teardown, terminating, settled. */
  datatype TearStage = Draining | Terminating(server: Server) | TookDown(confirmed: bool)

  /** `loadFromSpec`. */
  datatype SpawnStage = Announced | AwaitStopping(ticket: nat) | Claiming | Settling | Starting(server: Server)

  /** `unloadSession` around its teardown, and the last wait of `unloadModel`. */
  datatype UnloadStage = UnloadAnnounced | UnloadEnding | UnloadWaiting(ticket: nat)

  /** `execute`, outside the load lock. */
  datatype RunStage =
    | RunStart
    | RunBack
    | RunReady(server: Server)
    | Posting(server: Server)
    | Diagnosing(server: Server)
    | SavingClip
    | RunEnding(result: JobState)
    | RunnerDone

  datatype Pc =
    | WantLock(op: LockOp)
    | Tear(tear: TearStage, k: After)
    | Preparing
    | Spawn(spawn: SpawnStage, spec: Spec, who: LoadFor)
    | LoadEnded(who: LoadFor, ok: bool, cancelled: bool)
    | Unload(unload: UnloadStage, why: UnloadFor)
    | KeptSpec(keep: KeepFor, confirmed: bool)
    | AwaitRunner(job: JobId, caller: Caller)
    | CancelSettled(job: JobId, caller: Caller, answer: Option<bool>)
    | ReadingVoice(spec: Spec)
    | Runs(run: RunStage, job: JobId)
    | Done

  // --- the state -------------------------------------------------------------------------------

  /** The three slots a server can be in, and the processes themselves. */
  datatype Slots = Slots(
    session: Option<Server>,
    starting: Option<Spec>,
    stopping: Option<Stop>,
    spawning: Option<Server>,   // the child of a `spawn` still waiting for readiness
    live: set<nat>,             // servers whose process runs
    exited: set<nat>,           // servers whose exit the core has seen (`exitStatus() !== undefined`)
    nextServer: nat, nextTicket: nat)

  /** The jobs, what was asked of them and what they did to the world. */
  datatype Work = Work(
    table: Table,
    requested: set<JobId>,      // record.cancel: requested and aborted together
    runner: map<JobId, TaskId>, // record.done
    posted: set<JobId>,         // jobs whose request was sent to the engine
    saved: set<JobId>,          // jobs whose clip was handed to the gallery
    nextJob: nat)

  datatype State = State(
    slots: Slots,
    work: Work,
    spec: Option<Spec>,
    modelState: ModelState,
    generation: nat,
    closing: bool,
    idleArmed: bool,
    idleEnabled: bool,
    lock: Option<TaskId>,       // the load lock
    loading: Option<TaskId>,    // the load whose controller `this.loading` is
    abortedLoads: set<TaskId>,
    shutDown: bool,             // a call of `shutdown` has resolved
    nextSpec: nat,
    tasks: seq<Pc>)

  function Init(idleEnabled: bool): State {
    State(Slots(None, None, None, None, {}, {}, 0, 0), Work(Table(map[], [], None), {}, map[], {}, {}, 0),
          None, Unloaded, 0, false, false, idleEnabled, None, None, {}, false, 0, [])
  }

  /** The outcome of the await a task was suspended at, and a second bit where there are three. */
  datatype Choice = Choice(ok: bool, alt: bool)

  datatype Action =
    | CallLoad
    | CallUnload
    | CallActivate
    | CallShutdown
    | CallCancel(job: JobId)
    | CallStart(withVoice: bool)
    | IdleTick
    | Run(task: TaskId, choice: Choice)
    | ServerDies(id: nat)
    | ExitSeen(id: nat)

  // --- moves on the slots ----------------------------------------------------------------------

  /** The claim is granted: the server holds the GPU as starting. */
  function Hold(sl: Slots, spec: Spec): Slots {
    sl.(starting := Some(spec))
  }

  function Launch(sl: Slots, spec: Spec): Slots {
    sl.(spawning := Some(Server(sl.nextServer, spec)), live := sl.live + {sl.nextServer}, nextServer := sl.nextServer + 1)
  }

  /** The load failed; a spawn that rejects leaves its child dead. */
  function Abandon(sl: Slots): Slots {
    sl.(starting := None, spawning := None,
        live := if sl.spawning.Some? then sl.live - {sl.spawning.value.id} else sl.live)
  }

  function BecomeSession(sl: Slots, server: Server): Slots {
    sl.(starting := None, spawning := None, session := Some(server))
  }

  /** The session leaves its slot for `stopping`. */
  function BeginStop(sl: Slots, t: TaskId): Slots
    requires sl.session.Some?
  {
    sl.(session := None, stopping := Some(Stop(sl.session.value, sl.nextTicket, t)), nextTicket := sl.nextTicket + 1)
  }

  /** `finally` of the teardown: the slot is freed if it is still this teardown's. */
  function EndStop(sl: Slots, t: TaskId): Slots {
    sl.(stopping := if sl.stopping.Some? && sl.stopping.value.owner == t then None else sl.stopping)
  }

  function Confirmed(sl: Slots, t: TaskId, server: Server): Slots {
    EndStop(sl, t).(live := sl.live - {server.id}, exited := sl.exited + {server.id})
  }

  /** Without a confirmed exit the server goes back into the session slot, unless its exit was seen. */
  function Unconfirmed(sl: Slots, t: TaskId, server: Server): Slots {
    EndStop(sl, t).(session := if server.id !in sl.exited && sl.session.None? then Some(server) else sl.session)
  }

  /** `view()`: the session, if its server's exit has not been seen. */
  function View(sl: Slots): Option<Server> {
    if sl.session.Some? && sl.session.value.id !in sl.exited then sl.session else None
  }

  // --- moves on the jobs -----------------------------------------------------------------------

  function Request(w: Work, job: JobId): Work {
    w.(requested := w.requested + {job})
  }

  function Finish(w: Work, job: JobId, result: JobState): Work {
    w.(table := Finished(w.table, job, result))
  }

  function SetPhase(w: Work, job: JobId, phase: Phase): Work {
    w.(table := PhaseSet(w.table, job, phase))
  }

  function Post(w: Work, job: JobId): Work {
    SetPhase(w, job, Running).(posted := w.posted + {job})
  }

  function SaveClip(w: Work, job: JobId): Work {
    SetPhase(w, job, Saving).(saved := w.saved + {job})
  }

  /** The newest job, run by task `t`. */
  function Register(w: Work, t: TaskId): Work {
    w.(table := Registered(w.table, w.nextJob), runner := w.runner[w.nextJob := t], nextJob := w.nextJob + 1)
  }

  // --- moves on the whole state ----------------------------------------------------------------

  function WithTask(s: State, pc: Pc): State {
    s.(tasks := s.tasks + [pc])
  }

  function Goto(s: State, t: TaskId, pc: Pc): State {
    if t < |s.tasks| then s.(tasks := s.tasks[t := pc]) else s
  }

  function Release(s: State): State {
    s.(lock := None)
  }

  function TouchIdle(s: State): State {
    s.(idleArmed := s.idleEnabled)
  }

  function AbortLoading(s: State): State {
    if s.loading.Some? then s.(abortedLoads := s.abortedLoads + {s.loading.value}) else s
  }

  /** The teardown with this `done` promise is still running. */
  predicate Pending(s: State, ticket: nat) {
    s.slots.stopping.Some? && s.slots.stopping.value.ticket == ticket
  }

  /** Whether the signal the load was given is aborted. */
  predicate SignalAborted(s: State, t: TaskId, who: LoadFor) {
    match who
    case ForRequest => t in s.abortedLoads
    case ForJob(job) => job in s.work.requested
  }

  // --- cancelAudioJob up to its first await ----------------------------------------------------

  /**
   * The job is not over. While the engine generates the server is stopped; while the clip is being
   * saved the runner is waited for; before that the job ends here and now.
   */
  function CancelLive(s: State, t: TaskId, job: JobId, caller: Caller): State
    requires job in s.work.table.jobs
  {
    var phase := s.work.table.jobs[job].phase;
    var w := Request(s.work, job);
    Goto(s.(work := if phase.Running? || phase.Saving? then w else Finish(w, job, Cancelled)), t,
         if phase.Running? then Tear(Draining, ThenKeep(s.generation, CancelOf(job, caller)))
         else if phase.Saving? then AwaitRunner(job, caller)
         else CancelSettled(job, caller, Some(true)))
  }

  function EnterCancel(s: State, t: TaskId, job: JobId, caller: Caller): State {
    if Live(s.work.table, job) then CancelLive(s, t, job, caller)
    else
      Goto(s, t, CancelSettled(job, caller,
                               if job in s.work.table.jobs then Some(s.work.table.jobs[job].state.Cancelled?) else None))
  }

  // --- loads -----------------------------------------------------------------------------------

  /** `loadFromSpec` up to its first await. */
  function BeginLoad(s: State, t: TaskId, spec: Spec, who: LoadFor): State {
    Goto(s.(generation := s.generation + 1, modelState := LoadingModel), t, Spawn(Announced, spec, who))
  }

  function FailLoad(s: State, t: TaskId, who: LoadFor): State {
    var stopped := SignalAborted(s, t, who);
    Goto(s.(slots := Abandon(s.slots), modelState := if stopped then Unloaded else LoadFailed),
         t, LoadEnded(who, false, stopped))
  }

  function StepPreparing(s: State, t: TaskId, c: Choice): State {
    if c.ok then BeginLoad(s.(nextSpec := s.nextSpec + 1), t, s.nextSpec, ForRequest)
    else Goto(s.(modelState := LoadFailed), t, LoadEnded(ForRequest, false, false))
  }

  function StepAnnounced(s: State, t: TaskId, spec: Spec, who: LoadFor, c: Choice): State {
    if !c.ok then Goto(s, t, LoadEnded(who, false, false))
    else if s.slots.stopping.Some? then Goto(s, t, Spawn(AwaitStopping(s.slots.stopping.value.ticket), spec, who))
    else Goto(s, t, Spawn(Claiming, spec, who))
  }

  /** `granted` may be called at any time before the claim settles, and is called again after it. */
  function StepClaiming(s: State, t: TaskId, spec: Spec, who: LoadFor, c: Choice): State {
    if !c.ok then FailLoad(s, t, who)
    else Goto(s.(slots := Hold(s.slots, spec)), t, if c.alt then Spawn(Claiming, spec, who) else Spawn(Settling, spec, who))
  }

  function StepSettling(s: State, t: TaskId, spec: Spec, who: LoadFor, c: Choice): State {
    if !c.ok then FailLoad(s, t, who)
    else Goto(s.(slots := Launch(s.slots, spec)), t, Spawn(Starting(Server(s.slots.nextServer, spec)), spec, who))
  }

  function StepStarting(s: State, t: TaskId, spec: Spec, who: LoadFor, server: Server, c: Choice): State {
    if !c.ok then FailLoad(s, t, who)
    else
      Goto(TouchIdle(s.(slots := BecomeSession(s.slots, server), spec := Some(spec), modelState := Loaded)),
           t, LoadEnded(who, true, false))
  }

  function StepLoadEnded(s: State, t: TaskId, who: LoadFor, ok: bool, cancelled: bool): State {
    Goto(Release(s).(loading := if who.ForRequest? then None else s.loading), t,
         if who.ForRequest? then Done
         else if ok then Runs(RunBack, who.job)
         else Runs(RunEnding(if cancelled then Cancelled else Failed), who.job))
  }

  function StepSpawn(s: State, t: TaskId, at: SpawnStage, spec: Spec, who: LoadFor, c: Choice): State {
    match at
    case Announced => StepAnnounced(s, t, spec, who, c)
    case AwaitStopping(ticket) => if Pending(s, ticket) then s else Goto(s, t, Spawn(Claiming, spec, who))
    case Claiming => StepClaiming(s, t, spec, who, c)
    case Settling => StepSettling(s, t, spec, who, c)
    case Starting(server) => StepStarting(s, t, spec, who, server, c)
  }

  // --- teardown --------------------------------------------------------------------------------

  /** `while (state.stopping) await state.stopping.done`, then take the session out of its slot. */
  function StepDraining(s: State, t: TaskId, k: After): State {
    if s.slots.stopping.Some? then s
    else if s.slots.session.None? then Goto(s, t, Tear(TookDown(true), k))
    else Goto(s.(slots := BeginStop(s.slots, t)), t, Tear(Terminating(s.slots.session.value), k))
  }

  /** The exit is confirmed when `ok` or `alt`; `alt` alone is a journal entry that would not go. */
  function StepTerminating(s: State, t: TaskId, server: Server, k: After, c: Choice): State {
    Goto(s.(slots := if c.ok || c.alt then Confirmed(s.slots, t, server) else Unconfirmed(s.slots, t, server)),
         t, Tear(TookDown(c.ok), k))
  }

  /** `loadModel` after its teardown. */
  function StepLoadTookDown(s: State, t: TaskId, confirmed: bool): State {
    if confirmed then Goto(s.(spec := None), t, Preparing)
    else Goto(Release(s).(loading := None), t, Done)
  }

  /** `ensureSession` after its teardown. */
  function StepRespawnTookDown(s: State, t: TaskId, job: JobId, spec: Spec, confirmed: bool): State {
    if confirmed then BeginLoad(s, t, spec, ForJob(job))
    else Goto(Release(s), t, Runs(RunEnding(Failed), job))
  }

  /** `unloadSession` after its teardown. */
  function StepUnloadTookDown(s: State, t: TaskId, why: UnloadFor, confirmed: bool): State {
    if confirmed
    then Goto(s.(spec := None, idleArmed := false, modelState := Unloaded), t, Unload(UnloadEnding, why))
    else Goto(Release(s), t, Done)
  }

  /** `stopKeepingSpec` after its teardown: only while no newer load or unload owns the model state. */
  function StepKeepTookDown(s: State, t: TaskId, generation: nat, keep: KeepFor, confirmed: bool): State {
    var mine := confirmed && !s.closing && s.generation == generation;
    Goto(s.(idleArmed := if mine then false else s.idleArmed,
            modelState := if !mine then s.modelState else if keep.CrashOf? then LoadFailed else Unloaded),
         t, KeptSpec(keep, confirmed))
  }

  function StepTookDown(s: State, t: TaskId, k: After, confirmed: bool): State {
    match k
    case ThenLoad => StepLoadTookDown(s, t, confirmed)
    case ThenRespawn(job, spec) => StepRespawnTookDown(s, t, job, spec, confirmed)
    case ThenUnload(why) => StepUnloadTookDown(s, t, why, confirmed)
    case ThenShutdown => Goto(Release(s).(shutDown := s.shutDown || confirmed), t, Done)
    case ThenKeep(generation, keep) => StepKeepTookDown(s, t, generation, keep, confirmed)
  }

  function StepTear(s: State, t: TaskId, at: TearStage, k: After, c: Choice): State {
    match at
    case Draining => StepDraining(s, t, k)
    case Terminating(server) => StepTerminating(s, t, server, k, c)
    case TookDown(confirmed) => StepTookDown(s, t, k, confirmed)
  }

  // --- unloads ---------------------------------------------------------------------------------

  /** `unloadSession` up to its first await. */
  function BeginUnload(s: State, t: TaskId, why: UnloadFor): State {
    var announce := s.modelState.Loaded?;
    Goto(s.(generation := s.generation + 1, modelState := if announce then Unloading else s.modelState),
         t, if announce then Unload(UnloadAnnounced, why) else Tear(Draining, ThenUnload(why)))
  }

  function StepUnloadAnnounced(s: State, t: TaskId, why: UnloadFor, c: Choice): State {
    if c.ok then Goto(s, t, Tear(Draining, ThenUnload(why))) else Goto(Release(s), t, Done)
  }

  /** `unloadModel` waits once more for a teardown outside the lock; the other unloads just end. */
  function StepUnloadEnding(s: State, t: TaskId, why: UnloadFor): State {
    if why.UnloadRequest? && s.slots.stopping.Some? then Goto(s, t, Unload(UnloadWaiting(s.slots.stopping.value.ticket), why))
    else Goto(Release(s), t, Done)
  }

  function StepUnloadWaiting(s: State, t: TaskId, ticket: nat): State {
    if Pending(s, ticket) then s else Goto(Release(s), t, Done)
  }

  function StepUnload(s: State, t: TaskId, at: UnloadStage, why: UnloadFor, c: Choice): State {
    match at
    case UnloadAnnounced => StepUnloadAnnounced(s, t, why, c)
    case UnloadEnding => StepUnloadEnding(s, t, why)
    case UnloadWaiting(ticket) => StepUnloadWaiting(s, t, ticket)
  }

  // --- cancels ---------------------------------------------------------------------------------

  function StepKeptSpec(s: State, t: TaskId, keep: KeepFor, confirmed: bool): State {
    match keep
    case CancelOf(job, caller) =>
      if confirmed
      then Goto(s.(work := Finish(s.work, job, Cancelled)), t, CancelSettled(job, caller, Some(true)))
      else Goto(s, t, CancelSettled(job, caller, None))
    case CrashOf(job) => Goto(s, t, Runs(RunEnding(Failed), job))
  }

  function StepAwaitRunner(s: State, t: TaskId, job: JobId, caller: Caller): State {
    if job in s.work.runner && s.work.runner[job] < |s.tasks| && s.tasks[s.work.runner[job]] == Runs(RunnerDone, job)
    then
      Goto(s, t, CancelSettled(job, caller,
                               Some(job in s.work.table.jobs && s.work.table.jobs[job].state.Cancelled?)))
    else s
  }

  /** A lock holder goes on after the cancel it made, whether or not that cancel succeeded. */
  function StepCancelSettled(s: State, t: TaskId, caller: Caller, c: Choice): State {
    match caller
    case Client => s
    case ByLoad => Goto(s, t, Tear(Draining, ThenLoad))
    case ByUnload => BeginUnload(s, t, UnloadRequest)
    case ByActivation => if c.alt then Goto(Release(s), t, Done) else BeginUnload(s, t, EngineUpdate)
  }

  // --- jobs ------------------------------------------------------------------------------------

  /** `startAudioJob` past its last check: register the job and hand it to its runner, task `t`. */
  function RegisterJob(s: State, t: TaskId): State {
    Goto(s.(work := Register(s.work, t), idleArmed := false), t, Runs(RunStart, s.work.nextJob))
  }

  /** `afterTransportError` once the error is known: stop the server if it is still the session. */
  function LoseServer(s: State, t: TaskId, job: JobId, server: Server): State {
    if s.slots.session == Some(server) then Goto(s, t, Tear(Draining, ThenKeep(s.generation, CrashOf(job))))
    else Goto(s, t, Runs(RunEnding(Failed), job))
  }

  function StepReadingVoice(s: State, t: TaskId, spec: Spec, c: Choice): State {
    if !c.ok || s.closing || s.spec != Some(spec) || s.work.table.active.Some? then Goto(s, t, Done)
    else RegisterJob(s, t)
  }

  /** `ensureSession` before the lock. */
  function StepRunStart(s: State, t: TaskId, job: JobId): State {
    if View(s.slots).Some? then Goto(s, t, Runs(RunReady(View(s.slots).value), job))
    else if job in s.work.requested then Goto(s, t, Runs(RunEnding(Cancelled), job))
    else Goto(s.(work := SetPhase(s.work, job, Loading)), t, WantLock(RespawnOp(job)))
  }

  /** `ensureSession` after the lock. */
  function StepRunBack(s: State, t: TaskId, job: JobId): State {
    if View(s.slots).Some? then Goto(s, t, Runs(RunReady(View(s.slots).value), job))
    else Goto(s, t, Runs(RunEnding(Failed), job))
  }

  function StepRunReady(s: State, t: TaskId, job: JobId, server: Server): State {
    if job in s.work.requested then Goto(s, t, Runs(RunEnding(Cancelled), job))
    else Goto(s.(work := Post(s.work, job)), t, Runs(Posting(server), job))
  }

  /** An answer (`ok`), refused or no clip with `alt`; or none, past the ceiling with `alt`. */
  function StepPosting(s: State, t: TaskId, job: JobId, server: Server, c: Choice): State {
    if job in s.work.requested then Goto(s, t, Runs(RunEnding(Cancelled), job))
    else if c.ok then
      if c.alt then Goto(s, t, Runs(RunEnding(Failed), job))
      else Goto(s.(work := SaveClip(s.work, job)), t, Runs(SavingClip, job))
    else if c.alt || server.id in s.slots.exited then LoseServer(s, t, job, server)
    else Goto(s, t, Runs(Diagnosing(server), job))
  }

  function StepRunEnding(s: State, t: TaskId, job: JobId, result: JobState): State {
    Goto(TouchIdle(s.(work := Finish(s.work, job, result))), t, Runs(RunnerDone, job))
  }

  function StepRuns(s: State, t: TaskId, at: RunStage, job: JobId, c: Choice): State {
    match at
    case RunStart => StepRunStart(s, t, job)
    case RunBack => StepRunBack(s, t, job)
    case RunReady(server) => StepRunReady(s, t, job, server)
    case Posting(server) => StepPosting(s, t, job, server, c)
    case Diagnosing(server) => LoseServer(s, t, job, server)
    case SavingClip => Goto(s, t, Runs(RunEnding(if c.ok then Completed else Failed), job))
    case RunEnding(result) => StepRunEnding(s, t, job, result)
    case RunnerDone => s
  }

  // --- the load lock ---------------------------------------------------------------------------

  /** `loadModel` up to its first await, past the check of `closing`. */
  function EnterLoad(s: State, t: TaskId): State {
    var s1 := s.(lock := Some(t), loading := Some(t), generation := s.generation + 1);
    if s.work.table.active.Some? then EnterCancel(s1, t, s.work.table.active.value, ByLoad)
    else Goto(s1, t, Tear(Draining, ThenLoad))
  }

  function GrantLoad(s: State, t: TaskId): State {
    if s.closing then Goto(s, t, Done) else EnterLoad(s, t)
  }

  function GrantUnload(s: State, t: TaskId): State {
    var s1 := s.(lock := Some(t));
    if s.work.table.active.Some? then EnterCancel(s1, t, s.work.table.active.value, ByUnload)
    else BeginUnload(s1, t, UnloadRequest)
  }

  function GrantActivate(s: State, t: TaskId, c: Choice): State {
    var s1 := s.(lock := Some(t));
    if s.work.table.active.Some? then EnterCancel(s1, t, s.work.table.active.value, ByActivation)
    else if c.alt then Goto(s, t, Done)
    else BeginUnload(s1, t, EngineUpdate)
  }

  /** Inside the lock the job may be cancelled, the model gone or the server already back. */
  function GrantRespawn(s: State, t: TaskId, job: JobId): State {
    if job in s.work.requested then Goto(s, t, Runs(RunEnding(Cancelled), job))
    else if s.closing || (View(s.slots).None? && s.spec.None?) then Goto(s, t, Runs(RunEnding(Failed), job))
    else if View(s.slots).Some? then Goto(s, t, Runs(RunBack, job))
    else Goto(s.(lock := Some(t)), t, Tear(Draining, ThenRespawn(job, s.spec.value)))
  }

  function StepGrant(s: State, t: TaskId, op: LockOp, c: Choice): State {
    if s.lock.Some? then s
    else
      match op
      case LoadOp => GrantLoad(s, t)
      case UnloadOp => GrantUnload(s, t)
      case ActivateOp => GrantActivate(s, t, c)
      case ShutdownOp => Goto(s.(lock := Some(t)), t, Tear(Draining, ThenShutdown))
      case RespawnOp(job) => GrantRespawn(s, t, job)
  }

  // --- one step --------------------------------------------------------------------------------

  function StepTask(s: State, t: TaskId, c: Choice): State {
    if t >= |s.tasks| then s
    else
      match s.tasks[t]
      case WantLock(op) => StepGrant(s, t, op, c)
      case Tear(at, k) => StepTear(s, t, at, k, c)
      case Preparing => StepPreparing(s, t, c)
      case Spawn(at, spec, who) => StepSpawn(s, t, at, spec, who, c)
      case LoadEnded(who, ok, cancelled) => StepLoadEnded(s, t, who, ok, cancelled)
      case Unload(at, why) => StepUnload(s, t, at, why, c)
      case KeptSpec(keep, confirmed) => StepKeptSpec(s, t, keep, confirmed)
      case AwaitRunner(job, caller) => StepAwaitRunner(s, t, job, caller)
      case CancelSettled(_, caller, _) => StepCancelSettled(s, t, caller, c)
      case ReadingVoice(spec) => StepReadingVoice(s, t, spec, c)
      case Runs(at, job) => StepRuns(s, t, at, job, c)
      case Done => s
  }

  /** The state after an action; an action that is not possible changes nothing. */
  function Next(s: State, a: Action): State {
    match a
    case CallLoad => WithTask(s, WantLock(LoadOp))
    case CallUnload => WithTask(AbortLoading(s), WantLock(UnloadOp))
    case CallActivate => WithTask(s, WantLock(ActivateOp))
    case CallShutdown =>
      var s1 := AbortLoading(s).(closing := true);
      var s2 := if s.work.table.active.Some? then s1.(work := Request(s.work, s.work.table.active.value)) else s1;
      WithTask(s2, WantLock(ShutdownOp))
    case CallCancel(job) => EnterCancel(WithTask(s, Done), |s.tasks|, job, Client)
    case CallStart(withVoice) =>
      if s.closing || s.spec.None? || s.work.table.active.Some? then s
      else if withVoice then WithTask(s, ReadingVoice(s.spec.value))
      else RegisterJob(WithTask(s, Done), |s.tasks|)
    case IdleTick =>
      if !s.idleArmed || s.work.table.active.Some? || s.lock.Some? then s
      else if s.spec.None? then s.(idleArmed := false)
      else BeginUnload(WithTask(s.(lock := Some(|s.tasks|)), Done), |s.tasks|, IdleUnload)
    case Run(t, c) => StepTask(s, t, c)
    case ServerDies(id) => s.(slots := s.slots.(live := s.slots.live - {id}))
    case ExitSeen(id) => 
      if id < s.slots.nextServer && id !in s.slots.live
      then s.(slots := s.slots.(exited := s.slots.exited + {id})) else s
  }

  /** A run: the state after every action of `acts`, in order. */
  function Exec(s: State, acts: seq<Action>): State
    decreases |acts|
  {
    if acts == [] then s else Exec(Next(s, acts[0]), acts[1..])
  }

  // --- what GPU residency is told --------------------------------------------------------------

  datatype Occupant = Ready(spec: Spec) | StoppingServer(spec: Spec) | StartingServer(spec: Spec)

  /** `gpuOccupancy()`. */
  function Occupancy(s: State): seq<Occupant> {
    (if View(s.slots).Some? then [Ready(View(s.slots).value.spec)] else [])
    + (if s.slots.stopping.Some? then [StoppingServer(s.slots.stopping.value.server.spec)] else [])
    + (if s.slots.starting.Some? then [StartingServer(s.slots.starting.value)] else [])
  }
}
