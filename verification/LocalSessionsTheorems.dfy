// What holds of one model's sessions over every run of calls, cancels, failures, reloads and shutdown.

module LocalSessionsTheorems {
  import opened Options
  import opened LocalSessions

  // --- the invariant is kept -------------------------------------------------------------------

  /** Whose turn it is: everything queued before it has settled and nobody else is inside. */
  predicate HasTurn(s: State, t: TaskId) {
    && t < |s.tasks| && !s.tasks[t].pc.Settled? && SettledBefore(s, t)
    && forall i :: 0 <= i < |s.tasks| && i != t ==> !Inside(s.tasks[i])
  }

  lemma InsideHasTurn(s: State, t: TaskId)
    requires Chained(s) && t < |s.tasks| && !s.tasks[t].pc.Settled? && SettledBefore(s, t)
    ensures HasTurn(s, t)
  {
    forall i | 0 <= i < |s.tasks| && i != t
      ensures !Inside(s.tasks[i])
    {
      assert !s.tasks[i].pc.Waiting? ==> SettledBefore(s, i);
    }
  }

  /** A step of whoever has the turn keeps the queue in order. */
  lemma MoveChained(s: State, t: TaskId, pc: Pc, released: bool)
    requires Chained(s) && Pending(s) && HasTurn(s, t) && !pc.Waiting? && (released ==> pc.Settled?)
    requires s.tasks[t].acquire ==> !pc.Unloading? && !pc.Dropping?
    ensures var s' := s.(tasks := s.tasks[t := s.tasks[t].(pc := pc, released := s.tasks[t].released || released)]);
      Chained(s') && Pending(s')
  {
    var s' := s.(tasks := s.tasks[t := s.tasks[t].(pc := pc, released := s.tasks[t].released || released)]);
    assert forall i :: 0 <= i < |s.tasks| && s.tasks[i].pc.Settled? ==> s'.tasks[i].pc.Settled?;
    assert forall i :: 0 <= i <= |s.tasks| && SettledBefore(s, i) ==> SettledBefore(s', i);
    forall i | 0 <= i < |s.tasks| && !s'.tasks[i].pc.Waiting?
      ensures SettledBefore(s', i)
    {
      assert i != t ==> SettledBefore(s, i);
    }
  }

  /** The step of whoever has the turn, once its own part is settled. */
  lemma MoveOk(s: State, s': State, t: TaskId)
    requires Inv(s) && HasTurn(s, t) && t < |s'.tasks|
    requires var task, task' := s.tasks[t], s'.tasks[t];
      && s'.tasks == s.tasks[t := task.(pc := task'.pc, released := task.released || task'.released)]
      && !task'.pc.Waiting? && (task'.released && !task.released ==> task'.pc.Settled?) && TaskOk(s', task'.pc)
    requires s.tasks[t].acquire ==> !s'.tasks[t].pc.Unloading? && !s'.tasks[t].pc.Dropping?
    requires s'.tail == s.tail && s'.closer == s.closer && RuntimeOk(s'.rt) && s.rt.tickets <= s'.rt.tickets
    requires (s'.held ==> s'.known) && (s'.known && !s'.held ==> s'.tasks[t].pc.Releasing? || s'.tasks[t].pc.Dropping?)
    requires Down(s) ==> !Busy(s'.rt)
    requires !s.closer.ReleasingAll? && !s.closer.Closed?
    requires s.closer.AwaitingTransitions? && !s'.tasks[t].pc.Settled? ==> Inside(s.tasks[t])
    requires OwnerOk(s') && WaitOk(s'.rt, t, s'.tasks[t])
    ensures Inv(s')
  {
    MoveChained(s, t, s'.tasks[t].pc, s'.tasks[t].released && !s.tasks[t].released);
    assert s'.tasks[t] == s.tasks[t].(pc := s'.tasks[t].pc, released := s.tasks[t].released || s'.tasks[t].released);
    assert forall i :: 0 <= i < |s.tasks| && i != t ==> s'.tasks[i] == s.tasks[i];
  }

  /** Only whoever has the turn can own the load in flight, while it waits for that load. */
  lemma OwnerHasTurn(s: State, t: TaskId)
    requires Inv(s) && HasTurn(s, t) && s.rt.loading.Some? && s.rt.loading.value.owner.Some?
    ensures s.rt.loading.value.owner == Some(t) && s.tasks[t].pc.Loading?
    ensures s.tasks[t].pc.wait == Awaits(s.rt.loading.value.ticket, true)
  {
    var owner := s.rt.loading.value.owner.value;
    assert Inside(s.tasks[owner]);
  }

  /** Whoever has the turn owns no load in flight at this point. */
  predicate OwnsNone(s: State, t: TaskId)
    requires t < |s.tasks|
  {
    s.tasks[t].pc.Loading? && s.tasks[t].pc.wait.Awaits? && s.tasks[t].pc.wait.own ==> !InFlight(s.rt, s.tasks[t].pc.wait.ticket)
  }

  lemma NobodyOwns(s: State, t: TaskId)
    requires Inv(s) && HasTurn(s, t) && OwnsNone(s, t)
    ensures s.rt.loading.Some? ==> s.rt.loading.value.owner.None?
  {
    if s.rt.loading.Some? && s.rt.loading.value.owner.Some? {
      OwnerHasTurn(s, t);
    }
  }

  lemma CatchOk(s: State, t: TaskId, created: bool)
    requires Inv(s) && HasTurn(s, t) && Inside(s.tasks[t]) && s.known && s.held && OwnsNone(s, t)
    ensures Inv(Catch(s, t, created))
  {
    NobodyOwns(s, t);
    MoveOk(s, Catch(s, t, created), t);
  }

  lemma ClaimingOk(s: State, t: TaskId, ok: bool)
    requires Inv(s) && HasTurn(s, t) && s.tasks[t].pc.Claiming?
    ensures Inv(StepClaiming(s, t, ok))
  {
    NobodyOwns(s, t);
    MoveOk(s, StepClaiming(s, t, ok), t);
  }

  lemma CheckingOk(s: State, t: TaskId, created: bool, ok: bool)
    requires Inv(s) && HasTurn(s, t) && s.tasks[t].pc == Checking(created)
    ensures Inv(StepChecking(s, t, created, ok))
  {
    if ok && !Down(s) {
      NobodyOwns(s, t);
      MoveOk(s, StepChecking(s, t, created, ok), t);
    } else {
      CatchOk(s, t, created);
    }
  }

  lemma LoadingOk(s: State, t: TaskId, created: bool, wait: Wait)
    requires Inv(s) && HasTurn(s, t) && s.tasks[t].pc == Loading(created, wait)
    ensures Inv(StepLoading(s, t, created, wait))
  {
    if LoadSucceeded(s.rt, wait) {
      NobodyOwns(s, t);
      MoveOk(s, Goto(s, t, Updating(created)), t);
    } else if LoadLost(s.rt, wait) {
      CatchOk(s, t, created);
    }
  }

  lemma UpdatingOk(s: State, t: TaskId, created: bool, ok: bool)
    requires Inv(s) && HasTurn(s, t) && s.tasks[t].pc == Updating(created)
    ensures Inv(StepUpdating(s, t, created, ok))
  {
    if !ok {
      CatchOk(s, t, created);
    } else {
      NobodyOwns(s, t);
      MoveOk(s, StepUpdating(s, t, created, ok), t);
    }
  }

  lemma UnloadingOk(s: State, t: TaskId, stop: Option<nat>)
    requires Inv(s) && HasTurn(s, t) && s.tasks[t].pc == Unloading(stop)
    ensures Inv(StepUnloading(s, t, stop))
  {
    if StopOver(s.rt, stop) {
      NobodyOwns(s, t);
      MoveOk(s, StepUnloading(s, t, stop), t);
    }
  }

  /** The steps of a task already in its transition. */
  lemma InsideOk(s: State, t: TaskId, ok: bool)
    requires Inv(s) && t < |s.tasks| && Inside(s.tasks[t])
    ensures Inv(StepTask(s, t, ok))
  {
    InsideHasTurn(s, t);
    if !s.tasks[t].pc.Loading? {
      NobodyOwns(s, t);
    }
    match s.tasks[t].pc
    case Claiming => ClaimingOk(s, t, ok);
    case Checking(created) => CheckingOk(s, t, created, ok);
    case Loading(created, wait) => LoadingOk(s, t, created, wait);
    case Updating(created) => UpdatingOk(s, t, created, ok);
    case Undoing(stop) => CatchOk(s, t, true);
    case Releasing => MoveOk(s, Goto(s.(known := false), t, Settled(false)), t);
    case Unloading(stop) => UnloadingOk(s, t, stop);
    case Dropping => MoveOk(s, Goto(s.(known := false), t, Settled(true)), t);
  }

  lemma StartHasTurn(s: State, t: TaskId)
    requires Chained(s) && MayStart(s, t) && s.tasks[t].pc.Waiting?
    ensures HasTurn(s, t)
  {
    if s.tasks[t].prev.Some? {
      assert SettledBefore(s, t - 1);
    }
    InsideHasTurn(s, t);
  }

  /** A transition that gets its turn once everything is released only settles. */
  lemma LateOk(s: State, t: TaskId)
    requires Inv(s) && HasTurn(s, t) && s.tasks[t].pc.Waiting? && (s.closer.ReleasingAll? || s.closer.Closed?)
    ensures Inv(Goto(s, t, Settled(false)))
  {
    MoveChained(s, t, Settled(false), false);
  }

  lemma WaitingOk(s: State, t: TaskId)
    requires Inv(s) && t < |s.tasks| && s.tasks[t].pc.Waiting?
    ensures Inv(StepWaiting(s, t))
  {
    if MayStart(s, t) {
      StartHasTurn(s, t);
      if s.closer.ReleasingAll? || s.closer.Closed? {
        LateOk(s, t);
      } else {
        NobodyOwns(s, t);
        MoveOk(s, StepWaiting(s, t), t);
      }
    }
  }

  lemma SettledOk(s: State, t: TaskId)
    requires Inv(s) && IsSettled(s, t)
    ensures Inv(s.(tasks := s.tasks[t := s.tasks[t].(released := true)]))
  {
    var s' := s.(tasks := s.tasks[t := s.tasks[t].(released := true)]);
    assert forall i :: 0 <= i < |s.tasks| ==>
      s'.tasks[i].pc == s.tasks[i].pc && s'.tasks[i].prev == s.tasks[i].prev && s'.tasks[i].acquire == s.tasks[i].acquire;
    assert forall i :: 0 <= i <= |s.tasks| && SettledBefore(s, i) ==> SettledBefore(s', i);
  }

  lemma CancelOk(s: State)
    requires Inv(s)
    ensures Inv(CancelAll(s))
  {
    var s' := CancelAll(s);
    assert forall i: nat :: i < |s.tasks| ==> s'.tasks[i] == Cancelled(s.rt, s.tasks[i]);
    assert forall i :: 0 <= i <= |s.tasks| && SettledBefore(s, i) ==> SettledBefore(s', i);
    forall t: nat | t < |s.tasks|
      ensures TaskOk(s', s'.tasks[t].pc) && WaitOk(s'.rt, t, s'.tasks[t])
    {
      assert TaskOk(s, s.tasks[t].pc) && WaitOk(s.rt, t, s.tasks[t]) && AcquireOk(s.tasks[t]);
    }
  }

  lemma QueueOk(s: State, acquire: bool)
    requires Inv(s)
    ensures Inv(Queue(s, acquire))
  {
    var s' := Queue(s, acquire);
    assert forall i :: 0 <= i < |s.tasks| ==> s'.tasks[i] == s.tasks[i];
    assert forall i :: 0 <= i <= |s.tasks| && SettledBefore(s, i) ==> SettledBefore(s', i);
  }

  lemma CloseOk(s: State)
    requires Inv(s)
    ensures Inv(StepClose(s))
  {
    var s' := StepClose(s);
    assert forall i :: 0 <= i <= |s.tasks| && SettledBefore(s, i) ==> SettledBefore(s', i);
    if s.closer.RuntimesDown? && s.tail.None? {
      assert SettledBefore(s, |s.tasks|);
    }
    if s.closer.AwaitingTransitions? && s'.closer.ReleasingAll? {
      forall t | 0 <= t < |s.tasks|
        ensures !Inside(s.tasks[t])
      {
        assert s.closer.last.Some? ==> SettledBefore(s, s.closer.last.value);
      }
    }
  }

  lemma NextOk(s: State, a: Action)
    requires Inv(s)
    ensures Inv(Next(s, a))
  {
    match a
    case CallAcquire => QueueOk(s, true);
    case CallUnload => QueueOk(s, false);
    case CallCancel => CancelOk(s);
    case Run(t, ok) =>
      if t < |s.tasks| {
        if s.tasks[t].pc.Waiting? { WaitingOk(s, t); }
        else if s.tasks[t].pc.Settled? { SettledOk(s, t); }
        else { InsideOk(s, t, ok); }
      }
    case Close => CloseOk(s);
    case Forget(t) => ForgetOk(s, t);
    case _ => RuntimeActionOk(s, a);
  }

  lemma ForgetOk(s: State, t: TaskId)
    requires Inv(s)
    ensures Inv(Next(s, Forget(t)))
  {
    var s' := Next(s, Forget(t));
    assert forall i :: 0 <= i <= |s.tasks| && SettledBefore(s, i) ==> SettledBefore(s', i);
    if s'.tail != s.tail {
      assert SettledBefore(s, t);
    }
  }

  predicate IsRuntime(a: Action) {
    a.SessionDies? || a.StopEnds? || a.LoadEnds? || a.AutoUnload? || a.ReloadBegins? || a.ReloadLoads?
  }

  /** On its own the runtime keeps its tickets straight, and one that is down stays idle. */
  lemma RuntimeStepOk(rt: Runtime, a: Action, loadAborted: bool)
    requires RuntimeOk(rt)
    ensures var rt' := RuntimeStep(rt, a, loadAborted);
      && RuntimeOk(rt') && rt.tickets <= rt'.tickets && (!Busy(rt) ==> !Busy(rt')) && rt.loaded <= rt'.loaded
      && (rt'.loading == rt.loading || rt'.loading.None? || rt'.loading == Some(Load(rt.tickets, None)))
  {
  }

  lemma RuntimeActionOk(s: State, a: Action)
    requires Inv(s) && IsRuntime(a)
    ensures Inv(Next(s, a))
  {
    var s' := Next(s, a);
    RuntimeStepOk(s.rt, a, LoadAborted(s));
    assert s'.tasks == s.tasks;
    assert forall i :: 0 <= i <= |s.tasks| && SettledBefore(s, i) ==> SettledBefore(s', i);
  }

  lemma {:induction false} ExecOk(s: State, acts: seq<Action>)
    requires Inv(s)
    ensures Inv(Exec(s, acts))
    decreases |acts|
  {
    if acts != [] {
      NextOk(s, acts[0]);
      ExecOk(Next(s, acts[0]), acts[1..]);
    }
  }

  lemma ReachedOk(acts: seq<Action>)
    ensures Inv(Exec(Init(), acts))
  {
    ExecOk(Init(), acts);
  }

  // --- transitions -----------------------------------------------------------------------------

  /** Transitions of one model never overlap. */
  lemma TransitionsNeverOverlap(acts: seq<Action>, t: TaskId, u: TaskId)
    requires var s := Exec(Init(), acts); t < |s.tasks| && u < |s.tasks| && Inside(s.tasks[t]) && Inside(s.tasks[u])
    ensures t == u
  {
    ReachedOk(acts);
    InsideHasTurn(Exec(Init(), acts), t);
  }

  // --- the claim -------------------------------------------------------------------------------

  /** A session, and whatever in the runtime may bring one up, is covered by this core's claim. */
  predicate Claimed(s: State) {
    Busy(s.rt) ==> s.held
  }

  /** This step gives up the claim: an acquire that took itself for the creator fails, or an unload succeeds. */
  predicate GivesUp(s: State, a: Action) {
    && a.Run? && a.task < |s.tasks|
    && (var task := s.tasks[a.task];
        match task.pc
        case Claiming => a.ok && task.aborted && Creates(s.rt)
        case Checking(created) => created && !s.rt.session && (!a.ok || Down(s))
        case Loading(created, wait) =>
          created && !s.rt.session && LoadLost(s.rt, wait)
        case Updating(created) => created && !s.rt.session && !a.ok
        case Undoing(stop) => !s.rt.session && StopOver(s.rt, stop)
        case Unloading(stop) => StopOver(s.rt, stop) && UnloadSucceeded(s.rt, stop)
        case _ => false)
  }

  /** ... while a stop, a load or a reload of the model is in flight, or a session is back. */
  predicate GivesUpEarly(s: State, a: Action) {
    GivesUp(s, a) && Busy(s.rt)
  }

  lemma GivingUpDrops(s: State, a: Action)
    requires Inv(s) && GivesUp(s, a)
    ensures Next(s, a).rt == s.rt && !Next(s, a).held
  {
    assert TaskOk(s, s.tasks[a.task].pc);
  }

  lemma OtherStepKeepsClaim(s: State, a: Action)
    requires Inv(s) && Claimed(s) && a.Run? && a.task < |s.tasks| && !GivesUp(s, a)
    ensures Claimed(Next(s, a))
  {
    assert TaskOk(s, s.tasks[a.task].pc);
  }

  /** One step keeps the model claimed if and only if it does not give the claim up early. */
  lemma StepKeepsClaim(s: State, a: Action)
    requires Inv(s) && Claimed(s)
    ensures Claimed(Next(s, a)) <==> !GivesUpEarly(s, a)
  {
    if GivesUp(s, a) {
      GivingUpDrops(s, a);
    } else if a.Run? && a.task < |s.tasks| {
      OtherStepKeepsClaim(s, a);
    } else if IsRuntime(a) {
      RuntimeStepOk(s.rt, a, LoadAborted(s));
    }
  }

  /** No step of this run gives the claim up early. */
  predicate NeverEarly(s: State, acts: seq<Action>)
    decreases |acts|
  {
    acts == [] || (!GivesUpEarly(s, acts[0]) && NeverEarly(Next(s, acts[0]), acts[1..]))
  }

  lemma {:induction false} ExecKeepsClaim(s: State, acts: seq<Action>)
    requires Inv(s) && Claimed(s) && NeverEarly(s, acts)
    ensures Claimed(Exec(s, acts))
    decreases |acts|
  {
    if acts != [] {
      NextOk(s, acts[0]);
      StepKeepsClaim(s, acts[0]);
      ExecKeepsClaim(Next(s, acts[0]), acts[1..]);
    }
  }

  /** A live session means this core holds the model's claim, in every run that never gives it up early. */
  lemma LiveSessionIsClaimed(acts: seq<Action>)
    requires NeverEarly(Init(), acts)
    ensures var s := Exec(Init(), acts); s.rt.session ==> s.held && s.known
  {
    ReachedOk(acts);
    ExecKeepsClaim(Init(), acts);
  }

  /** In any run that leaves the model unclaimed there is a step that gave it up early. */
  lemma {:induction false} UnclaimedOnlyAfterEarly(s: State, acts: seq<Action>) returns (at: nat)
    requires Inv(s) && Claimed(s) && !Claimed(Exec(s, acts))
    ensures at < |acts| && GivesUpEarly(Exec(s, acts[..at]), acts[at])
    decreases |acts|
  {
    if GivesUpEarly(s, acts[0]) {
      at := 0;
      assert Exec(s, acts[..0]) == s;
    } else {
      NextOk(s, acts[0]);
      StepKeepsClaim(s, acts[0]);
      var i := UnclaimedOnlyAfterEarly(Next(s, acts[0]), acts[1..]);
      at := i + 1;
      assert acts[..at][1..] == acts[1..][..i];
    }
  }

  lemma ExecOne(s: State, acts: seq<Action>)
    requires acts != []
    ensures Exec(s, acts) == Exec(Next(s, acts[0]), acts[1..])
  {
  }

  /** What a busy runtime need do for its session to be there. */
  function BringUp(rt: Runtime): seq<Action> {
    if rt.session then []
    else if rt.loading.Some? then [LoadEnds(true)]
    else if rt.stop.Some? then [StopEnds(false, true)]
    else [ReloadLoads(0), LoadEnds(true)]
  }

  /** Nobody's cancel stands against the load in flight. */
  predicate Unhindered(s: State) {
    s.rt.loading.Some? ==> s.rt.loading.value.owner.None?
  }

  lemma BringUpBrings(s: State)
    requires Busy(s.rt) && Unhindered(s)
    ensures var s' := Exec(s, BringUp(s.rt));
      s'.rt.session && s'.held == s.held && s'.tasks == s.tasks && s'.closer == s.closer
  {
    var acts := BringUp(s.rt);
    if |acts| == 1 {
      ExecOne(s, acts);
    } else if |acts| == 2 {
      ExecOne(s, acts);
      ExecOne(Next(s, acts[0]), acts[1..]);
    }
  }

  /** Giving up early is what loses the session: the runtime alone can then have one that nobody claims. */
  lemma EarlyMeansUnclaimedSession(acts: seq<Action>, a: Action)
    requires GivesUpEarly(Exec(Init(), acts), a)
    ensures var s := Next(Exec(Init(), acts), a);
      var s' := Exec(s, BringUp(s.rt));
      s'.rt.session && !s'.held
  {
    var s := Exec(Init(), acts);
    ReachedOk(acts);
    GivingUpDrops(s, a);
    InsideHasTurn(s, a.task);
    NobodyOwns(s, a.task);
    BringUpBrings(Next(s, a));
  }

  /** The claim is given up over a session that is there by an unload only: it does not look again once it has its answer. */
  lemma ReleasedOverSession(acts: seq<Action>, a: Action)
    ensures var s := Exec(Init(), acts);
      s.held && !Next(s, a).held && Next(s, a).rt.session <==>
        GivesUpEarly(s, a) && s.held && s.rt.session && s.tasks[a.task].pc.Unloading?
  {
    var s := Exec(Init(), acts);
    ReachedOk(acts);
    if GivesUp(s, a) {
      GivingUpDrops(s, a);
    } else if a.Run? && a.task < |s.tasks| && s.held {
      OtherStepKeepsHold(s, a);
    }
  }

  lemma OtherStepKeepsHold(s: State, a: Action)
    requires Inv(s) && a.Run? && a.task < |s.tasks| && !GivesUp(s, a) && s.held
    ensures Next(s, a).held
  {
    assert TaskOk(s, s.tasks[a.task].pc);
  }

  /** After a finished shutdown nothing is left: no session, no claim, no transition. */
  lemma ClosedIsClean(acts: seq<Action>)
    requires Exec(Init(), acts).closer.Closed?
    ensures var s := Exec(Init(), acts); !Busy(s.rt) && !s.held && !s.known && Quiet(s)
  {
    ReachedOk(acts);
  }

  // --- cancels ---------------------------------------------------------------------------------

  /** Past its last look at the signal that matters, joining a session, and that session is there or can come. */
  predicate CanStillAnswer(s: State, pc: Pc) {
    match pc
    case Checking(created) => !created && !Down(s) && Busy(s.rt)
    case Loading(created, wait) => !created && LoadSucceeded(s.rt, wait)
    case Updating(created) => !created
    case _ => false
  }

  /** A cancelled acquire that will not answer with a session. */
  predicate Doomed(s: State, t: TaskId) {
    && t < |s.tasks| && s.tasks[t].acquire && s.tasks[t].aborted
    && !CanStillAnswer(s, s.tasks[t].pc) && s.tasks[t].pc != Settled(true)
    && !s.tasks[t].pc.Unloading? && !s.tasks[t].pc.Dropping?
  }

  lemma StepDoomed(s: State, t: TaskId, ok: bool)
    requires Inv(s) && Doomed(s, t)
    ensures Doomed(StepTask(s, t, ok), t)
  {
    assert WaitOk(s.rt, t, s.tasks[t]);
  }

  /** What it waits for cannot come any more: an idle runtime stays idle, and its own load ends without a session. */
  lemma RuntimeDoomed(s: State, a: Action, t: TaskId)
    requires Inv(s) && Doomed(s, t) && IsRuntime(a)
    ensures Doomed(Next(s, a), t)
  {
    assert WaitOk(s.rt, t, s.tasks[t]);
    RuntimeStepOk(s.rt, a, LoadAborted(s));
  }

  /** Nobody else steps past the queue while it is inside. */
  lemma OthersWait(s: State, u: TaskId, ok: bool, t: TaskId)
    requires Inv(s) && t < |s.tasks| && Inside(s.tasks[t]) && u < |s.tasks| && u != t
    ensures StepTask(s, u, ok).rt == s.rt
  {
    InsideHasTurn(s, t);
    if s.tasks[u].pc.Waiting? && MayStart(s, u) {
      StartHasTurn(s, u);
    }
  }

  lemma OtherDoomed(s: State, u: TaskId, ok: bool, t: TaskId)
    requires Inv(s) && Doomed(s, t) && u < |s.tasks| && u != t
    ensures Doomed(StepTask(s, u, ok), t)
  {
    assert OnlyTask(s, StepTask(s, u, ok), u);
    if Inside(s.tasks[t]) {
      OthersWait(s, u, ok, t);
    }
  }

  lemma NextDoomed(s: State, a: Action, t: TaskId)
    requires Inv(s) && Doomed(s, t)
    ensures Doomed(Next(s, a), t)
  {
    if IsRuntime(a) {
      RuntimeDoomed(s, a, t);
    } else if a.Run? && a.task == t {
      StepDoomed(s, t, a.ok);
    } else if a.Run? && a.task < |s.tasks| {
      OtherDoomed(s, a.task, a.ok, t);
    } else if a.CallCancel? {
      assert Next(s, a).tasks[t] == Cancelled(s.rt, s.tasks[t]);
    }
  }

  lemma {:induction false} ExecDoomed(s: State, acts: seq<Action>, t: TaskId)
    requires Inv(s) && Doomed(s, t)
    ensures Doomed(Exec(s, acts), t)
    decreases |acts|
  {
    if acts != [] {
      NextOk(s, acts[0]);
      NextDoomed(s, acts[0], t);
      ExecDoomed(Next(s, acts[0]), acts[1..], t);
    }
  }

  /** The run ends with this acquire answered. */
  predicate AnswersIn(s: State, acts: seq<Action>, t: TaskId) {
    var s' := Exec(s, acts);
    t < |s'.tasks| && s'.tasks[t].pc == Settled(true)
  }

  /** It has its session: what is left is to be let go on. */
  predicate HasSession(s: State, pc: Pc) {
    match pc
    case Checking(created) => !created && !Down(s) && s.rt.session
    case Loading(created, wait) => !created && LoadSucceeded(s.rt, wait)
    case Updating(created) => !created
    case _ => false
  }

  function StepsLeft(pc: Pc): nat {
    if pc.Checking? then 3 else if pc.Loading? then 2 else if pc.Updating? then 1 else 0
  }

  lemma JoinedStep(s: State, t: TaskId)
    requires t < |s.tasks| && HasSession(s, s.tasks[t].pc)
    ensures var s' := Next(s, Run(t, true));
      && |s'.tasks| == |s.tasks| && StepsLeft(s'.tasks[t].pc) < StepsLeft(s.tasks[t].pc)
      && (HasSession(s', s'.tasks[t].pc) || s'.tasks[t].pc == Settled(true))
  {
  }

  lemma {:induction false} JoinedRun(s: State, t: TaskId) returns (acts: seq<Action>)
    requires t < |s.tasks| && (s.tasks[t].pc == Settled(true) || HasSession(s, s.tasks[t].pc))
    ensures AnswersIn(s, acts, t)
    decreases StepsLeft(s.tasks[t].pc)
  {
    acts := [];
    if s.tasks[t].pc != Settled(true) {
      JoinedStep(s, t);
      var more := JoinedRun(Next(s, Run(t, true)), t);
      acts := [Run(t, true)] + more;
      assert acts[1..] == more;
    }
  }

  lemma {:induction false} ExecAppend(s: State, acts: seq<Action>, more: seq<Action>)
    ensures Exec(s, acts + more) == Exec(Exec(s, acts), more)
    decreases |acts|
  {
    if acts == [] {
      assert acts + more == more;
    } else {
      assert (acts + more)[1..] == acts[1..] + more;
      ExecAppend(Next(s, acts[0]), acts[1..], more);
    }
  }

  /** The runtime brings its session up before the acquire asks for it, if it is not up yet. */
  lemma CanAnswer(s: State, t: TaskId) returns (acts: seq<Action>)
    requires Inv(s) && t < |s.tasks| && CanStillAnswer(s, s.tasks[t].pc)
    ensures AnswersIn(s, acts, t)
  {
    if s.tasks[t].pc.Checking? {
      InsideHasTurn(s, t);
      NobodyOwns(s, t);
      BringUpBrings(s);
      var up := Exec(s, BringUp(s.rt));
      var more := JoinedRun(up, t);
      ExecAppend(s, BringUp(s.rt), more);
      acts := BringUp(s.rt) + more;
    } else {
      acts := JoinedRun(s, t);
    }
  }

  /**
   * After a cancel a pending acquire can still answer with a session if and only if it is past its
   * last look at the signal, joins a session, and either has got it already or has yet to ask for it
   * while the runtime has one or is about to. One that waits for a load, its own or joined, rejects,
   * and so does every other one, however the run goes on.
   */
  lemma CancelWinsIff(before: seq<Action>, t: TaskId)
    requires var s := Exec(Init(), before); t < |s.tasks| && s.tasks[t].acquire && !s.tasks[t].pc.Settled?
    ensures var s := Exec(Init(), before);
      CanStillAnswer(s, s.tasks[t].pc) <==>
        exists after: seq<Action> :: AnswersIn(Next(s, CallCancel), after, t)
  {
    var s := Exec(Init(), before);
    var s' := Next(s, CallCancel);
    ReachedOk(before);
    NextOk(s, CallCancel);
    assert AcquireOk(s.tasks[t]);
    assert s'.tasks[t] == Cancelled(s.rt, s.tasks[t]);
    if CanStillAnswer(s, s.tasks[t].pc) {
      var after := CanAnswer(s', t);
      assert AnswersIn(s', after, t);
    } else {
      forall after: seq<Action>
        ensures !AnswersIn(s', after, t)
      {
        ExecDoomed(s', after, t);
      }
    }
  }
}
