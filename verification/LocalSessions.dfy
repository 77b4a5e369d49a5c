// The sessions of one model (src/core/sessions.ts): acquires and unloads queue on the model's
// transition, hold the cross-process claim of the model while it is loaded, and can be cancelled
// while they are pending. One task per call; a step runs a task from one await to the next. The
// runtime below them (src/runtime/llamacpp/runtime.ts) is what its maps say of the model: a session, a
// stop in flight, a load in flight, and the reloads it runs on its own, outside any transition.

module LocalSessions {
  import opened Options

  type TaskId = nat

  // --- the runtime -------------------------------------------------------------------------------

  /** A load in flight, and the acquire whose signal it was given; a reload has none. */
  datatype Load = Load(ticket: nat, owner: Option<TaskId>)

  /** A stop and a load in flight are promises; tickets tell them apart. */
  datatype Runtime = Runtime(
    session: bool,
    stop: Option<nat>,
    stopped: set<nat>,      // stops that ended with success
    loading: Option<Load>,
    loaded: set<nat>,       // loads that ended with a session
    reloads: seq<nat>,      // reloads waiting for the stop they began with
    tickets: nat)

  /**
   * What `load` returns: the session that is there, a load in flight, its own or one it joined, or the
   * refusal of a joined load that the signal cut off.
   */
  datatype Wait = Resolved | Awaits(ticket: nat, own: bool) | Refused

  /** `unloadSession`: joins a stop in flight, answers at once without a session. */
  function StopSession(rt: Runtime): (Runtime, Option<nat>) {
    if rt.stop.Some? then (rt, rt.stop)
    else if !rt.session then (rt, None)
    else (rt.(session := false, stop := Some(rt.tickets), tickets := rt.tickets + 1), Some(rt.tickets))
  }

  /**
   * `load` of a runtime that is running. A session that is there is returned without a look at the
   * signal; a load in flight is joined only by a caller that is not cancelled.
   */
  function StartLoad(rt: Runtime, owner: Option<TaskId>, aborted: bool): (Runtime, Wait) {
    if rt.session then (rt, Resolved)
    else if rt.loading.Some? then (rt, if aborted then Refused else Awaits(rt.loading.value.ticket, false))
    else (rt.(loading := Some(Load(rt.tickets, owner)), tickets := rt.tickets + 1), Awaits(rt.tickets, true))
  }

  /** A stop that fails may put the session back. */
  function StopEnded(rt: Runtime, ok: bool, back: bool): Runtime {
    if rt.stop.None? then rt
    else if ok then rt.(stop := None, stopped := rt.stopped + {rt.stop.value})
    else rt.(stop := None, session := rt.session || back)
  }

  function LoadEnded(rt: Runtime, ok: bool): Runtime {
    if rt.loading.None? then rt
    else if ok then rt.(loading := None, loaded := rt.loaded + {rt.loading.value.ticket}, session := true)
    else rt.(loading := None)
  }

  /** `recreateSession` and `autoIncreaseCtx` up to their stop. */
  function ReloadBegun(rt: Runtime): Runtime {
    var (stopping, ticket) := StopSession(rt);
    if rt.session && ticket.Some? then stopping.(reloads := rt.reloads + [ticket.value]) else rt
  }

  /** ... and from there to their load. */
  function ReloadGoesOn(rt: Runtime, i: nat): Runtime {
    if i < |rt.reloads| && rt.stop != Some(rt.reloads[i])
    then StartLoad(rt.(reloads := rt.reloads[..i] + rt.reloads[i + 1..]), None, false).0 else rt
  }

  function RuntimeDown(rt: Runtime): Runtime {
    StopEnded(rt, true, false).(session := false, loading := None, reloads := [])
  }

  /** A process runs, or something in flight may bring one up or put one back. */
  predicate Busy(rt: Runtime) {
    rt.session || rt.stop.Some? || rt.loading.Some? || rt.reloads != []
  }

  predicate StopOver(rt: Runtime, stop: Option<nat>) {
    stop.None? || rt.stop != stop
  }

  // --- transitions -------------------------------------------------------------------------------

  datatype Pc =
    | Waiting
    | Claiming                              // acquireModelClaim
    | Checking(created: bool)               // assertNotLoadedByLegacy
    | Loading(created: bool, wait: Wait)    // runtime.load
    | Updating(created: bool)               // claim.update('ready')
    | Undoing(stop: Option<nat>)            // runtime.unload after a cancel that raced readiness
    | Releasing                             // claim.release in the catch block
    | Unloading(stop: Option<nat>)          // runtime.unload of an unload
    | Dropping                              // claim.release of an unload
    | Settled(ok: bool)

  /** `prev` is the transition this one was chained behind; `aborted`, `released` are its cancel handle's. */
  datatype Task = Task(acquire: bool, prev: Option<TaskId>, aborted: bool, released: bool, pc: Pc)

  /** The shutdown of the core: runtimes first, then `releaseAll`. */
  datatype Closer = Open | Stopping | RuntimesDown | AwaitingTransitions(last: Option<TaskId>) | ReleasingAll | Closed

  datatype State = State(
    tasks: seq<Task>,
    tail: Option<TaskId>,           // modelTransitions.get(key)
    held: bool,                     // the claim file is this core's
    known: bool,                    // modelClaims.has(key)
    rt: Runtime,
    closer: Closer)

  function Init(): State {
    State([], None, false, false, Runtime(false, None, {}, None, {}, [], 0), Open)
  }

  datatype Action =
    | CallAcquire
    | CallUnload
    | CallCancel
    | Run(task: TaskId, ok: bool)
    | Forget(task: TaskId)          // the microtask that drops a settled tail
    | SessionDies
    | StopEnds(ok: bool, back: bool)
    | LoadEnds(ok: bool)
    | AutoUnload                    // the load of another model stops this one's session
    | ReloadBegins
    | ReloadLoads(index: nat)
    | Close

  predicate Down(s: State) {
    !s.closer.Open? && !s.closer.Stopping?
  }

  /** A step of one task leaves every other task where it was. */
  predicate OnlyTask(s: State, s': State, t: TaskId) {
    |s'.tasks| == |s.tasks| && forall i :: 0 <= i < |s.tasks| && i != t ==> s'.tasks[i] == s.tasks[i]
  }

  function Goto(s: State, t: TaskId, pc: Pc): (s': State)
    ensures OnlyTask(s, s', t)
  {
    if t < |s.tasks| then s.(tasks := s.tasks[t := s.tasks[t].(pc := pc)]) else s
  }

  /** `withModelTransition` up to its return. */
  function Queue(s: State, acquire: bool): State {
    s.(tasks := s.tasks + [Task(acquire, s.tail, false, !acquire, Waiting)], tail := Some(|s.tasks|))
  }

  predicate IsSettled(s: State, t: TaskId) {
    t < |s.tasks| && s.tasks[t].pc.Settled?
  }

  predicate MayStart(s: State, t: TaskId) {
    t < |s.tasks| && (s.tasks[t].prev.None? || IsSettled(s, s.tasks[t].prev.value))
  }

  /** Whether an acquire takes itself for the one that creates the session. */
  predicate Creates(rt: Runtime) {
    !rt.session && rt.loading.None?
  }

  /** The catch block of `acquireNow`. */
  function Catch(s: State, t: TaskId, created: bool): (s': State)
    ensures OnlyTask(s, s', t)
  {
    if created && !s.rt.session then Goto(s.(held := false), t, Releasing) else Goto(s, t, Settled(false))
  }

  function StepWaiting(s: State, t: TaskId): (s': State)
    requires t < |s.tasks|
    ensures OnlyTask(s, s', t)
  {
    if !MayStart(s, t) then s
    else if !s.closer.Open? || s.tasks[t].aborted then Goto(s, t, Settled(false))
    else if !s.tasks[t].acquire then Goto(s.(rt := StopSession(s.rt).0), t, Unloading(StopSession(s.rt).1))
    else Goto(s, t, if s.known then Checking(Creates(s.rt)) else Claiming)
  }

  function StepClaiming(s: State, t: TaskId, ok: bool): (s': State)
    requires t < |s.tasks|
    ensures OnlyTask(s, s', t)
  {
    if !ok then Goto(s, t, Settled(false))
    else
      var s1 := s.(held := true, known := true);
      if s.tasks[t].aborted then Catch(s1, t, Creates(s.rt)) else Goto(s1, t, Checking(Creates(s.rt)))
  }

  /** A runtime that was shut down loads nothing. */
  function StepChecking(s: State, t: TaskId, created: bool, ok: bool): (s': State)
    requires t < |s.tasks|
    ensures OnlyTask(s, s', t)
  {
    var (rt, wait) := StartLoad(s.rt, Some(t), s.tasks[t].aborted);
    if ok && !Down(s) then Goto(s.(rt := rt), t, Loading(created, wait)) else Catch(s, t, created)
  }

  predicate LoadSucceeded(rt: Runtime, wait: Wait) {
    wait.Resolved? || (wait.Awaits? && wait.ticket in rt.loaded)
  }

  predicate InFlight(rt: Runtime, ticket: nat) {
    rt.loading.Some? && rt.loading.value.ticket == ticket
  }

  predicate LoadLost(rt: Runtime, wait: Wait) {
    wait.Refused? || (wait.Awaits? && wait.ticket !in rt.loaded && !InFlight(rt, wait.ticket))
  }

  function StepLoading(s: State, t: TaskId, created: bool, wait: Wait): (s': State)
    ensures OnlyTask(s, s', t)
  {
    if LoadSucceeded(s.rt, wait) then Goto(s, t, Updating(created))
    else if LoadLost(s.rt, wait) then Catch(s, t, created)
    else s
  }

  function StepUpdating(s: State, t: TaskId, created: bool, ok: bool): (s': State)
    requires t < |s.tasks|
    ensures OnlyTask(s, s', t)
  {
    if !ok then Catch(s, t, created)
    else if created && s.tasks[t].aborted then
      if Down(s) then Goto(s, t, Undoing(None)) else Goto(s.(rt := StopSession(s.rt).0), t, Undoing(StopSession(s.rt).1))
    else Goto(s.(tasks := s.tasks[t := s.tasks[t].(released := true)]), t, Settled(true))
  }

  predicate UnloadSucceeded(rt: Runtime, stop: Option<nat>) {
    stop.None? || stop.value in rt.stopped
  }

  function StepUnloading(s: State, t: TaskId, stop: Option<nat>): (s': State)
    ensures OnlyTask(s, s', t)
  {
    if !StopOver(s.rt, stop) then s
    else if UnloadSucceeded(s.rt, stop) then Goto(s.(held := false), t, Dropping)
    else Goto(s, t, Settled(true))
  }

  function StepTask(s: State, t: TaskId, ok: bool): (s': State)
    requires t < |s.tasks|
    ensures OnlyTask(s, s', t)
  {
    match s.tasks[t].pc
    case Waiting => StepWaiting(s, t)
    case Claiming => StepClaiming(s, t, ok)
    case Checking(created) => StepChecking(s, t, created, ok)
    case Loading(created, wait) => StepLoading(s, t, created, wait)
    case Updating(created) => StepUpdating(s, t, created, ok)
    case Undoing(stop) => if StopOver(s.rt, stop) then Catch(s, t, true) else s
    case Releasing => Goto(s.(known := false), t, Settled(false))
    case Unloading(stop) => StepUnloading(s, t, stop)
    case Dropping => Goto(s.(known := false), t, Settled(true))
    case Settled(_) => s.(tasks := s.tasks[t := s.tasks[t].(released := true)])
  }

  /** The abort of a signal rejects at once what was waiting for a joined load. */
  function CutOff(rt: Runtime, pc: Pc): Pc {
    if pc.Loading? && pc.wait.Awaits? && !pc.wait.own && pc.wait.ticket !in rt.loaded then pc.(wait := Refused) else pc
  }

  /** A cancel reaches every acquire still pending. */
  function Cancelled(rt: Runtime, task: Task): Task {
    if task.released then task else task.(aborted := true, pc := CutOff(rt, task.pc))
  }

  function CancelAll(s: State): State {
    s.(tasks := seq(|s.tasks|, i requires 0 <= i < |s.tasks| => Cancelled(s.rt, s.tasks[i])))
  }

  function StepClose(s: State): State {
    match s.closer
    case Open => s.(closer := Stopping)
    case Stopping => s.(closer := RuntimesDown, rt := RuntimeDown(s.rt))
    case RuntimesDown => s.(closer := AwaitingTransitions(s.tail))
    case AwaitingTransitions(last) =>
      if last.None? || IsSettled(s, last.value) then s.(closer := ReleasingAll, held := false) else s
    case ReleasingAll => s.(closer := Closed, known := false)
    case Closed => s
  }

  /** The load in flight was given the signal of an acquire that is cancelled. */
  predicate LoadAborted(s: State) {
    && s.rt.loading.Some? && s.rt.loading.value.owner.Some?
    && (var owner := s.rt.loading.value.owner.value; owner < |s.tasks| && s.tasks[owner].aborted)
  }

  /** What the runtime does on its own; a load looks at its signal once more before there is a session. */
  function RuntimeStep(rt: Runtime, a: Action, loadAborted: bool): Runtime {
    match a
    case SessionDies => rt.(session := false)
    case StopEnds(ok, back) => StopEnded(rt, ok, back)
    case LoadEnds(ok) => LoadEnded(rt, ok && !loadAborted)
    case AutoUnload => StopSession(rt).0
    case ReloadBegins => ReloadBegun(rt)
    case ReloadLoads(i) => ReloadGoesOn(rt, i)
    case _ => rt
  }

  function Next(s: State, a: Action): State {
    match a
    case CallAcquire => Queue(s, true)
    case CallUnload => Queue(s, false)
    case CallCancel => CancelAll(s)
    case Run(t, ok) => if t < |s.tasks| then StepTask(s, t, ok) else s
    case Forget(t) => if IsSettled(s, t) && s.tail == Some(t) then s.(tail := None) else s
    case Close => StepClose(s)
    case _ => s.(rt := RuntimeStep(s.rt, a, LoadAborted(s)))
  }

  function Exec(s: State, acts: seq<Action>): State
    decreases |acts|
  {
    if acts == [] then s else Exec(Next(s, acts[0]), acts[1..])
  }

  // --- every reachable state -------------------------------------------------------------------

  /** In its transition: past the queue and not settled. */
  predicate Inside(task: Task) {
    !task.pc.Waiting? && !task.pc.Settled?
  }

  predicate SettledBefore(s: State, t: TaskId) {
    forall i :: 0 <= i < t && i < |s.tasks| ==> s.tasks[i].pc.Settled?
  }

  /** Each transition is chained behind the one before, unless all before had settled. */
  predicate Chained(s: State) {
    && (forall t :: 0 <= t < |s.tasks| ==>
          if s.tasks[t].prev.None? then SettledBefore(s, t) else s.tasks[t].prev == Some(t - 1))
    && (forall t :: 0 <= t < |s.tasks| ==> !s.tasks[t].pc.Waiting? ==> SettledBefore(s, t))
    && (if s.tail.None? then SettledBefore(s, |s.tasks|) else s.tail == Some(|s.tasks| - 1))
  }

  /** An acquire runs its own steps, and its handle is released with the answer. */
  predicate AcquireOk(task: Task) {
    task.acquire ==> !task.pc.Unloading? && !task.pc.Dropping? && (task.released ==> task.pc.Settled?)
  }

  predicate Pending(s: State) {
    forall t :: 0 <= t < |s.tasks| ==> AcquireOk(s.tasks[t])
  }

  /** What whoever is inside the transition may rely on. */
  predicate TaskOk(s: State, pc: Pc) {
    match pc
    case Claiming => !s.known
    case Checking(_) => s.known && s.held
    case Loading(_, _) => s.known && s.held
    case Updating(_) => s.known && s.held
    case Undoing(_) => s.known && s.held
    case Releasing => s.known && !s.held
    case Dropping => !s.held
    case _ => true
  }

  /** A load begun is its owner's to wait for, and nobody who is cancelled waits for one that was joined. */
  predicate WaitOk(rt: Runtime, t: TaskId, task: Task) {
    task.pc.Loading? && task.pc.wait.Awaits? ==>
      var wait := task.pc.wait;
      && wait.ticket < rt.tickets
      && (wait.own && InFlight(rt, wait.ticket) ==> rt.loading.value.owner == Some(t))
      && (!wait.own && task.aborted ==> wait.ticket in rt.loaded)
  }

  predicate OwnerOk(s: State) {
    s.rt.loading.Some? && s.rt.loading.value.owner.Some? ==>
      var owner := s.rt.loading.value.owner.value;
      && owner < |s.tasks| && s.tasks[owner].pc.Loading?
      && s.tasks[owner].pc.wait == Awaits(s.rt.loading.value.ticket, true)
  }

  predicate Quiet(s: State) {
    forall t :: 0 <= t < |s.tasks| ==> !Inside(s.tasks[t])
  }

  /** Whether the claim file is in step with what the core knows: unless a release is in flight. */
  predicate ClaimOk(s: State) {
    && (s.held ==> s.known)
    && (s.known && !s.held ==>
          s.closer.ReleasingAll? ||
          exists t :: 0 <= t < |s.tasks| && (s.tasks[t].pc.Releasing? || s.tasks[t].pc.Dropping?))
  }

  /** Tickets in use were handed out. */
  predicate RuntimeOk(rt: Runtime) {
    && (rt.loading.Some? ==> rt.loading.value.ticket < rt.tickets && rt.loading.value.ticket !in rt.loaded)
    && (forall k: nat :: k in rt.loaded ==> k < rt.tickets)
  }

  predicate ClosingOk(s: State) {
    && (Down(s) ==> !Busy(s.rt))
    && (s.closer.AwaitingTransitions? ==>
          forall t :: 0 <= t < |s.tasks| && Inside(s.tasks[t]) ==> s.closer.last.Some? && t <= s.closer.last.value)
    && (s.closer.ReleasingAll? || s.closer.Closed? ==> Quiet(s) && !s.held)
    && (s.closer.Closed? ==> !s.known)
  }

  predicate Inv(s: State) {
    && Chained(s) && Pending(s) && ClaimOk(s) && ClosingOk(s) && RuntimeOk(s.rt) && OwnerOk(s)
    && (forall t: nat :: t < |s.tasks| ==> TaskOk(s, s.tasks[t].pc) && WaitOk(s.rt, t, s.tasks[t]))
  }
}
