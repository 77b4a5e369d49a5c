// What the answer of `cancelAudioJob` is worth, whoever calls it: a client, or a load, an unload or an
// engine activation that holds the load lock. The answer can be wrong exactly when the job's runner has
// already lost its server.

module AudioCancels {
  import opened Options
  import opened AudioJobs
  import opened AudioProtocol
  import opened AudioSafety
  import opened AudioTheorems

  // --- entering a cancel -----------------------------------------------------------------------

  /** A lock holder that cancels the active job before anything else. */
  predicate CancelsFirst(s: State, pc: Pc) {
    (pc == WantLock(LoadOp) && !s.closing) || pc == WantLock(UnloadOp) || pc == WantLock(ActivateOp)
  }

  /** This action is the first step of a cancel of the job. */
  predicate EntersCancel(s: State, a: Action, job: JobId) {
    || a == CallCancel(job)
    || (a.Run? && a.task < |s.tasks| && s.lock.None? && s.work.table.active == Some(job) && CancelsFirst(s, s.tasks[a.task]))
  }

  /** Who cancels: a new task, or the one that gets the lock. */
  function CancellerOf(s: State, a: Action): TaskId {
    if a.Run? then a.task else |s.tasks|
  }

  /** Whoever cancels, the rest of the state is what it was. */
  lemma EntersFrom(s: State, a: Action, job: JobId) returns (s1: State, caller: Caller)
    requires EntersCancel(s, a, job)
    ensures var t := CancellerOf(s, a);
      && Next(s, a) == EnterCancel(s1, t, job, caller)
      && s1.work == s.work && s1.slots == s.slots && t < |s1.tasks| && |s.tasks| <= |s1.tasks|
      && forall u: nat :: u < |s.tasks| && u != t ==> s1.tasks[u] == s.tasks[u]
  {
    if a.CallCancel? {
      s1, caller := WithTask(s, Done), Client;
    } else if s.tasks[a.task] == WantLock(LoadOp) {
      s1, caller := s.(lock := Some(a.task), loading := Some(a.task), generation := s.generation + 1), ByLoad;
    } else {
      s1, caller := s.(lock := Some(a.task)), if s.tasks[a.task] == WantLock(UnloadOp) then ByUnload else ByActivation;
    }
  }

  /**
   * Of a job that is over, or not generating, the cancel answers how the record ends: at once, or when
   * its runner is done if the clip is being saved.
   */
  lemma AnswerIsExactUnlessGenerating(s: State, a: Action, job: JobId)
    requires EntersCancel(s, a, job)
    requires job in s.work.table.jobs && (s.work.table.jobs[job].phase.Running? ==> Terminal(s.work.table.jobs[job].state))
    ensures var s' := Next(s, a);
      var t := CancellerOf(s, a);
      && t < |s'.tasks| && job in s'.work.table.jobs
      && ((s'.tasks[t].CancelSettled? && s'.tasks[t].job == job &&
           s'.tasks[t].answer == Some(s'.work.table.jobs[job].state.Cancelled?)) ||
          (s'.tasks[t].AwaitRunner? && s'.tasks[t].job == job && s.work.table.jobs[job].phase.Saving?))
  {
    var s1, caller := EntersFrom(s, a, job);
    if Live(s.work.table, job) && !s.work.table.jobs[job].phase.Saving? {
      assert Finish(Request(s.work, job), job, Cancelled).table.jobs[job].state == Cancelled;
    }
  }

  /** The second half of a cancel made while the clip was being saved: it answers how the job ended. */
  lemma WaitedAnswerIsExact(idleEnabled: bool, acts: seq<Action>, t: TaskId, c: Choice, job: JobId, caller: Caller)
    requires var s := Reached(idleEnabled, acts);
      && t < |s.tasks| && s.tasks[t] == AwaitRunner(job, caller)
      && Next(s, Run(t, c)).tasks[t] != s.tasks[t]
    ensures var s := Reached(idleEnabled, acts);
      var s' := Next(s, Run(t, c));
      && !Live(s'.work.table, job)
      && s'.tasks[t] == CancelSettled(job, caller, Some(job in s'.work.table.jobs && s'.work.table.jobs[job].state.Cancelled?))
  {
    ReachedOk(idleEnabled, acts);
    var s := Reached(idleEnabled, acts);
    assert TaskOk(s, s.work.runner[job], s.tasks[s.work.runner[job]]);
  }

  /** A cancel made while the engine generates asks for the server to be stopped. */
  lemma EntersTeardown(s: State, a: Action, job: JobId) returns (generation: nat, caller: Caller)
    requires EntersCancel(s, a, job) && Live(s.work.table, job) && s.work.table.jobs[job].phase.Running?
    ensures var s' := Next(s, a);
      var t := CancellerOf(s, a);
      && t < |s'.tasks| && s'.tasks[t] == Tear(Draining, ThenKeep(generation, CancelOf(job, caller)))
      && s'.work == Request(s.work, job) && |s.tasks| <= |s'.tasks|
      && forall u: nat :: u < |s.tasks| && u != t ==> s'.tasks[u] == s.tasks[u]
  {
    var s1, who := EntersFrom(s, a, job);
    generation, caller := s1.generation, who;
  }

  // --- the stages of a runner ------------------------------------------------------------------

  /** The runner has lost its server, or its request failed, and will record the job as failed. */
  predicate Losing(pc: Pc, job: JobId) {
    || (pc.Runs? && pc.job == job && (pc.run.Diagnosing? || pc.run == RunEnding(Failed)))
    || (pc.Tear? && pc.k.ThenKeep? && pc.k.keep == CrashOf(job))
    || (pc.KeptSpec? && pc.keep == CrashOf(job))
  }

  /** The runner has posted its request and has not begun to save. */
  predicate Posted(pc: Pc, job: JobId) {
    Losing(pc, job) || (pc.Runs? && pc.job == job && (pc.run.Posting? || pc.run == RunEnding(Cancelled)))
  }

  predicate StageAt(w: Work, pc: Pc, job: JobId) {
    && RunnerOf(pc) == Some(job)
    && (Live(w.table, job) && w.table.jobs[job].phase.Running? ==> Posted(pc, job))
  }

  /** Every job that is not over has its runner, at a stage that fits its phase. */
  ghost predicate StagesOk(s: State) {
    forall j: JobId :: Live(s.work.table, j) ==>
      j in s.work.runner && s.work.runner[j] < |s.tasks| && StageAt(s.work, s.tasks[s.work.runner[j]], j)
  }

  /** A step of the runner that leaves the jobs alone. */
  predicate Carries(s: State, s': State, t: TaskId, job: JobId) {
    t < |s'.tasks| && s'.work == s.work && RunnerOf(s'.tasks[t]) == Some(job)
  }

  lemma PostingStage(s: State, t: TaskId, job: JobId, server: Server, c: Choice)
    requires t < |s.tasks| && s.tasks[t] == Runs(Posting(server), job)
    ensures var s' := StepPosting(s, t, job, server, c); t < |s'.tasks| && StageAt(s'.work, s'.tasks[t], job)
  {
  }

  lemma RunStartStage(s: State, t: TaskId, job: JobId)
    requires t < |s.tasks| && s.tasks[t] == Runs(RunStart, job) && StageAt(s.work, s.tasks[t], job)
    ensures var s' := StepRunStart(s, t, job); t < |s'.tasks| && StageAt(s'.work, s'.tasks[t], job)
  {
  }

  lemma RunBackStage(s: State, t: TaskId, job: JobId)
    requires t < |s.tasks| && s.tasks[t] == Runs(RunBack, job) && StageAt(s.work, s.tasks[t], job)
    ensures var s' := StepRunBack(s, t, job); t < |s'.tasks| && StageAt(s'.work, s'.tasks[t], job)
  {
  }

  lemma RunReadyStage(s: State, t: TaskId, job: JobId, server: Server)
    requires t < |s.tasks| && s.tasks[t] == Runs(RunReady(server), job) && StageAt(s.work, s.tasks[t], job)
    ensures var s' := StepRunReady(s, t, job, server); t < |s'.tasks| && StageAt(s'.work, s'.tasks[t], job)
  {
  }

  lemma RunsStage(s: State, t: TaskId, at: RunStage, job: JobId, c: Choice)
    requires Inv(s) && t < |s.tasks| && s.tasks[t] == Runs(at, job) && StageAt(s.work, s.tasks[t], job)
    ensures var s' := StepRuns(s, t, at, job, c); t < |s'.tasks| && StageAt(s'.work, s'.tasks[t], job)
  {
    match at
    case Posting(server) => PostingStage(s, t, job, server, c);
    case RunEnding(result) =>
      assert TaskOk(s, t, s.tasks[t]);
      FinishOk(s.work, job, result);
    case Diagnosing(server) =>
    case SavingClip =>
    case RunnerDone =>
    case RunStart => RunStartStage(s, t, job);
    case RunBack => RunBackStage(s, t, job);
    case RunReady(server) => RunReadyStage(s, t, job, server);
  }

  lemma LateSpawnCarries(s: State, t: TaskId, at: SpawnStage, spec: Spec, job: JobId, c: Choice)
    requires t < |s.tasks| && s.tasks[t] == Spawn(at, spec, ForJob(job)) && (at.Claiming? || at.Settling? || at.Starting?)
    ensures Carries(s, StepSpawn(s, t, at, spec, ForJob(job), c), t, job)
  {
  }

  lemma SpawnCarries(s: State, t: TaskId, at: SpawnStage, spec: Spec, job: JobId, c: Choice)
    requires t < |s.tasks| && s.tasks[t] == Spawn(at, spec, ForJob(job))
    ensures Carries(s, StepSpawn(s, t, at, spec, ForJob(job), c), t, job)
  {
    if at.Claiming? || at.Settling? || at.Starting? {
      LateSpawnCarries(s, t, at, spec, job, c);
    }
  }

  lemma TearCarries(s: State, t: TaskId, at: TearStage, k: After, job: JobId, c: Choice)
    requires t < |s.tasks| && s.tasks[t] == Tear(at, k) && RunnerOf(s.tasks[t]) == Some(job)
    ensures var s' := StepTear(s, t, at, k, c); Carries(s, s', t, job) && (Losing(s.tasks[t], job) ==> Losing(s'.tasks[t], job))
  {
    if at.TookDown? {
      assert k.ThenRespawn? || k.ThenKeep?;
    }
  }

  lemma OwnStage(s: State, t: TaskId, job: JobId, c: Choice)
    requires Inv(s) && t < |s.tasks| && StageAt(s.work, s.tasks[t], job)
    ensures var s' := StepTask(s, t, c); t < |s'.tasks| && StageAt(s'.work, s'.tasks[t], job)
  {
    match s.tasks[t]
    case Runs(at, _) => RunsStage(s, t, at, job, c);
    case Spawn(at, spec, who) => SpawnCarries(s, t, at, spec, job, c);
    case Tear(at, k) => TearCarries(s, t, at, k, job, c);
    case WantLock(op) => GrantStage(s, t, job);
    case _ => RestStage(s, t, job, c);
  }

  lemma RestStage(s: State, t: TaskId, job: JobId, c: Choice)
    requires t < |s.tasks| && (s.tasks[t].LoadEnded? || s.tasks[t].KeptSpec?) && StageAt(s.work, s.tasks[t], job)
    ensures var s' := StepTask(s, t, c); t < |s'.tasks| && StageAt(s'.work, s'.tasks[t], job)
  {
  }

  lemma GrantStage(s: State, t: TaskId, job: JobId)
    requires t < |s.tasks| && s.tasks[t] == WantLock(RespawnOp(job)) && StageAt(s.work, s.tasks[t], job)
    ensures var s' := GrantRespawn(s, t, job); t < |s'.tasks| && StageAt(s'.work, s'.tasks[t], job)
  {
  }

  /** A step leaves the stages of other runners alone. */
  lemma RelyStages(s: State, s': State, t: TaskId, j: JobId)
    requires StagesOk(s) && OnlyMoved(s, s', t) && JobRely(s.work, s'.work, t)
    requires j < s.work.nextJob && Live(s'.work.table, j) && s.work.runner[j] != t
    ensures j in s'.work.runner && s'.work.runner[j] < |s'.tasks| && StageAt(s'.work, s'.tasks[s'.work.runner[j]], j)
  {
    assert Live(s.work.table, j);
  }

  lemma StepStages(s: State, t: TaskId, c: Choice)
    requires Inv(s) && StagesOk(s) && t < |s.tasks| && !s.tasks[t].ReadingVoice? && !s.tasks[t].Done?
    ensures StagesOk(StepTask(s, t, c))
  {
    var s' := StepTask(s, t, c);
    StepTaskOk(s, t, c);
    if s' != s {
      forall j: JobId | Live(s'.work.table, j)
        ensures j in s'.work.runner && s'.work.runner[j] < |s'.tasks| && StageAt(s'.work, s'.tasks[s'.work.runner[j]], j)
      {
        assert j < s'.work.nextJob == s.work.nextJob;
        assert Live(s.work.table, j);
        if s.work.runner[j] == t {
          OwnStage(s, t, j, c);
        } else {
          RelyStages(s, s', t, j);
        }
      }
    }
  }

  /** A new job starts with its runner. */
  lemma RegisterStages(s: State, t: TaskId)
    requires WorkOk(s.work) && s.work.table.active.None? && t < |s.tasks|
    ensures StagesOk(RegisterJob(s, t))
  {
    RegisterOk(s.work, t);
    assert RegisterJob(s, t).tasks[t] == Runs(RunStart, s.work.nextJob);
    assert forall j: JobId :: Live(Register(s.work, t).table, j) ==> j == s.work.nextJob;
  }

  lemma VoiceStages(s: State, t: TaskId, c: Choice)
    requires Inv(s) && StagesOk(s) && t < |s.tasks| && s.tasks[t].ReadingVoice?
    ensures StagesOk(StepTask(s, t, c))
  {
    if c.ok && !s.closing && s.spec == Some(s.tasks[t].spec) && s.work.table.active.None? {
      RegisterStages(s, t);
    } else {
      assert forall j: JobId :: Live(s.work.table, j) ==> s.work.runner[j] != t;
    }
  }

  lemma CancelRelyStages(s: State, s': State, t: TaskId)
    requires StagesOk(s) && CancelRely(s.work, s'.work) && OnlyMoved(s, s', t)
    requires forall j: JobId :: Live(s.work.table, j) ==> s.work.runner[j] != t
    ensures StagesOk(s')
  {
  }

  lemma CancelStages(s: State, job: JobId)
    requires Inv(s) && StagesOk(s)
    ensures StagesOk(Next(s, CallCancel(job)))
  {
    var s1 := WithTask(s, Done);
    KeptStages(s, s1);
    EnterCancelOk(s1, |s.tasks|, job, Client);
    CancelRelyStages(s1, EnterCancel(s1, |s.tasks|, job, Client), |s.tasks|);
  }

  lemma StartStages(s: State, withVoice: bool)
    requires Inv(s) && StagesOk(s)
    ensures StagesOk(Next(s, CallStart(withVoice)))
  {
    if !s.closing && s.spec.Some? && s.work.table.active.None? && !withVoice {
      RegisterStages(WithTask(s, Done), |s.tasks|);
    }
  }

  /** The jobs, their runners and every task there was are as before; more cancels may be requested. */
  predicate KeepsJobs(s: State, s': State) {
    && s'.work.table == s.work.table && s'.work.runner == s.work.runner && s'.work.nextJob == s.work.nextJob
    && s.work.requested <= s'.work.requested && s.tasks <= s'.tasks
  }

  lemma TickKeepsJobs(s: State)
    ensures KeepsJobs(s, Next(s, IdleTick))
  {
  }

  lemma ShutdownKeepsJobs(s: State)
    ensures KeepsJobs(s, Next(s, CallShutdown))
  {
  }

  lemma CallKeepsJobs(s: State, a: Action)
    requires !a.Run? && !a.CallCancel? && !a.CallStart?
    ensures KeepsJobs(s, Next(s, a))
  {
    if a.IdleTick? {
      TickKeepsJobs(s);
    } else if a.CallShutdown? {
      ShutdownKeepsJobs(s);
    }
  }

  lemma KeptStages(s: State, s': State)
    requires StagesOk(s) && KeepsJobs(s, s')
    ensures StagesOk(s')
  {
  }

  lemma NextStages(s: State, a: Action)
    requires Inv(s) && StagesOk(s)
    ensures StagesOk(Next(s, a))
  {
    if a.CallCancel? {
      CancelStages(s, a.job);
    } else if a.CallStart? {
      StartStages(s, a.withVoice);
    } else if !a.Run? {
      CallKeepsJobs(s, a);
      KeptStages(s, Next(s, a));
    } else if a.task < |s.tasks| && s.tasks[a.task].ReadingVoice? {
      VoiceStages(s, a.task, a.choice);
    } else if a.task < |s.tasks| && !s.tasks[a.task].Done? {
      StepStages(s, a.task, a.choice);
    }
  }

  lemma {:induction false} ExecStages(s: State, acts: seq<Action>)
    requires Inv(s) && StagesOk(s)
    ensures StagesOk(Exec(s, acts))
    decreases |acts|
  {
    if acts != [] {
      NextOk(s, acts[0]);
      NextStages(s, acts[0]);
      ExecStages(Next(s, acts[0]), acts[1..]);
    }
  }

  // --- a cancel before the server is lost ------------------------------------------------------

  /** The runner of a cancelled job is waiting for the engine's answer, or past that and ending as cancelled. */
  ghost predicate EndsCancelled(s: State, job: JobId) {
    && job < s.work.nextJob && job in s.work.requested && job in s.work.runner && s.work.runner[job] < |s.tasks|
    && (job in s.work.table.jobs ==> Live(s.work.table, job) || s.work.table.jobs[job].state.Cancelled?)
    && (var pc := s.tasks[s.work.runner[job]];
        && pc.Runs? && pc.job == job
        && (pc.run.Posting? || pc.run == RunEnding(Cancelled) || pc.run.RunnerDone?))
  }

  /** The runner's own step. */
  lemma RunnerEndsCancelled(s: State, job: JobId, c: Choice)
    requires Inv(s) && EndsCancelled(s, job)
    ensures EndsCancelled(StepTask(s, s.work.runner[job], c), job)
  {
    var t := s.work.runner[job];
    assert TaskOk(s, t, s.tasks[t]);
    if s.tasks[t].run.RunEnding? {
      FinishOk(s.work, job, Cancelled);
    }
  }

  /** Anyone else's: what a task may do to the others leaves it so. */
  lemma RelyEndsCancelled(s: State, s': State, t: TaskId, job: JobId)
    requires EndsCancelled(s, job) && s.work.runner[job] != t && OnlyMoved(s, s', t) && JobRely(s.work, s'.work, t)
    ensures EndsCancelled(s', job)
  {
  }

  lemma KeptEndsCancelled(s: State, s': State, job: JobId)
    requires EndsCancelled(s, job) && KeepsJobs(s, s')
    ensures EndsCancelled(s', job)
  {
  }

  lemma CancelEndsCancelled(s: State, other: JobId, job: JobId)
    requires Inv(s) && EndsCancelled(s, job)
    ensures EndsCancelled(Next(s, CallCancel(other)), job)
  {
    var s1 := WithTask(s, Done);
    EnterCancelOk(s1, |s.tasks|, other, Client);
    CancelRelyEndsCancelled(s1, EnterCancel(s1, |s.tasks|, other, Client), |s.tasks|, job);
  }

  lemma CancelRelyEndsCancelled(s: State, s': State, t: TaskId, job: JobId)
    requires EndsCancelled(s, job) && CancelRely(s.work, s'.work) && OnlyMoved(s, s', t) && s.work.runner[job] != t
    ensures EndsCancelled(s', job)
  {
  }

  lemma StartEndsCancelled(s: State, withVoice: bool, job: JobId)
    requires Inv(s) && EndsCancelled(s, job)
    ensures EndsCancelled(Next(s, CallStart(withVoice)), job)
  {
    if !s.closing && s.spec.Some? && s.work.table.active.None? && !withVoice {
      RegisterOk(s.work, |s.tasks|);
    }
  }

  lemma StepEndsCancelled(s: State, t: TaskId, c: Choice, job: JobId)
    requires Inv(s) && EndsCancelled(s, job) && t < |s.tasks|
    ensures EndsCancelled(StepTask(s, t, c), job)
  {
    if t == s.work.runner[job] {
      RunnerEndsCancelled(s, job, c);
    } else {
      StepTaskOk(s, t, c);
      if StepTask(s, t, c) != s {
        RelyEndsCancelled(s, StepTask(s, t, c), t, job);
      }
    }
  }

  lemma NextEndsCancelled(s: State, a: Action, job: JobId)
    requires Inv(s) && EndsCancelled(s, job)
    ensures EndsCancelled(Next(s, a), job)
  {
    if a.CallCancel? {
      CancelEndsCancelled(s, a.job, job);
    } else if a.CallStart? {
      StartEndsCancelled(s, a.withVoice, job);
    } else if !a.Run? {
      CallKeepsJobs(s, a);
      KeptEndsCancelled(s, Next(s, a), job);
    } else if a.task < |s.tasks| {
      StepEndsCancelled(s, a.task, a.choice, job);
    }
  }

  lemma {:induction false} ExecEndsCancelled(s: State, acts: seq<Action>, job: JobId)
    requires Inv(s) && EndsCancelled(s, job)
    ensures EndsCancelled(Exec(s, acts), job)
    decreases |acts|
  {
    if acts != [] {
      NextOk(s, acts[0]);
      NextEndsCancelled(s, acts[0], job);
      ExecEndsCancelled(Next(s, acts[0]), acts[1..], job);
    }
  }

  /** However it was requested, by a cancel or by shutdown: a job whose request is out can only end as cancelled. */
  lemma RequestedWhilePostedEndsCancelled(idleEnabled: bool, before: seq<Action>, after: seq<Action>, job: JobId)
    requires var s := Reached(idleEnabled, before);
      && job in s.work.requested && Live(s.work.table, job) && job in s.work.runner && s.work.runner[job] < |s.tasks|
      && (var pc := s.tasks[s.work.runner[job]]; pc.Runs? && pc.run.Posting? && pc.job == job)
    ensures var tb := Exec(Reached(idleEnabled, before), after).work.table;
      job in tb.jobs && !Live(tb, job) ==> tb.jobs[job].state.Cancelled?
  {
    ReachedOk(idleEnabled, before);
    ExecEndsCancelled(Reached(idleEnabled, before), after, job);
  }

  // --- a cancel after that: how the run may go on ----------------------------------------------

  const GO := Choice(true, false)

  lemma {:induction false} ExecAppend(s: State, acts: seq<Action>, more: seq<Action>)
    ensures Exec(s, acts + more) == Exec(Exec(s, acts), more)
    decreases |acts|
  {
    if acts == [] {
      assert acts + more == more;
    } else {
      assert (acts + more)[1..] == acts[1..] + more;
      ExecAppend(Next(s, acts[0]), acts[1..], more);
    }
  }

  predicate Terminates(pc: Pc) {
    pc.Tear? && pc.tear.Terminating?
  }

  /** From `s` the run gets to `s'`, in which only task `t` and a teardown under way have moved. */
  ghost predicate Gets(s: State, acts: seq<Action>, s': State, t: TaskId) {
    && Exec(s, acts) == s' && Inv(s') && |s'.tasks| == |s.tasks|
    && forall u: nat :: u < |s.tasks| && u != t && !Terminates(s.tasks[u]) ==> s'.tasks[u] == s.tasks[u]
  }

  /** One step further. */
  lemma GetsOn(s: State, acts: seq<Action>, s1: State, t: TaskId) returns (more: seq<Action>, s': State)
    requires Gets(s, acts, s1, t) && t < |s1.tasks| && OnlyMoved(s1, StepTask(s1, t, GO), t)
    requires |StepTask(s1, t, GO).tasks| == |s1.tasks|
    ensures Gets(s, more, s', t) && s' == StepTask(s1, t, GO)
  {
    more, s' := acts + [Run(t, GO)], StepTask(s1, t, GO);
    ExecAppend(s, acts, [Run(t, GO)]);
    assert Exec(s1, [Run(t, GO)]) == Exec(s', [Run(t, GO)][1..]) == s';
    NextOk(s1, Run(t, GO));
  }

  /** A teardown in the slot is finished by its owner. */
  lemma FreeStop(s: State, t: TaskId, k: After) returns (acts: seq<Action>, s': State)
    requires Inv(s) && t < |s.tasks| && s.tasks[t] == Tear(Draining, k)
    ensures Gets(s, acts, s', t) && s'.work == s.work && s'.slots.stopping.None? && s'.tasks[t] == s.tasks[t]
  {
    acts, s' := [], s;
    assert Exec(s, []) == s;
    if s.slots.stopping.Some? {
      var u := s.slots.stopping.value.owner;
      assert TaskOk(s, u, s.tasks[u]) && TaskOk(s, t, s.tasks[t]);
      acts, s' := [Run(u, GO)], StepTask(s, u, GO);
      assert Exec(s, acts) == Exec(s', acts[1..]) == s';
      NextOk(s, Run(u, GO));
    }
  }

  /** Task `t` alone moved, from one point to another, and the jobs are as before. */
  ghost predicate Moves(s: State, s': State, t: TaskId, pc: Pc) {
    OnlyMoved(s, s', t) && |s'.tasks| == |s.tasks| && s'.work == s.work && s'.tasks[t] == pc
  }

  lemma DrainMoves(s: State, t: TaskId, k: After)
    requires t < |s.tasks| && s.tasks[t] == Tear(Draining, k) && s.slots.stopping.None?
    ensures Moves(s, StepTask(s, t, GO), t,
                  Tear(if s.slots.session.None? then TookDown(true) else Terminating(s.slots.session.value), k))
  {
  }

  lemma TerminateMoves(s: State, t: TaskId, server: Server, k: After)
    requires t < |s.tasks| && s.tasks[t] == Tear(Terminating(server), k)
    ensures Moves(s, StepTask(s, t, GO), t, Tear(TookDown(true), k))
  {
  }

  lemma KeepMoves(s: State, t: TaskId, confirmed: bool, generation: nat, keep: KeepFor)
    requires t < |s.tasks| && s.tasks[t] == Tear(TookDown(confirmed), ThenKeep(generation, keep))
    ensures Moves(s, StepTask(s, t, GO), t, KeptSpec(keep, confirmed))
  {
  }

  lemma TearsDown(s: State, t: TaskId, k: After) returns (acts: seq<Action>, s': State)
    requires Inv(s) && t < |s.tasks| && s.tasks[t] == Tear(Draining, k)
    ensures Gets(s, acts, s', t) && s'.work == s.work && s'.tasks[t] == Tear(TookDown(true), k)
  {
    acts, s' := FreeStop(s, t, k);
    var session := s'.slots.session;
    DrainMoves(s', t, k);
    acts, s' := GetsOn(s, acts, s', t);
    if session.Some? {
      TerminateMoves(s', t, session.value, k);
      acts, s' := GetsOn(s, acts, s', t);
    }
  }

  /** `stopKeepingSpec` comes to its end, confirmed unless it already failed. */
  lemma KeepsSpec(s: State, t: TaskId, at: TearStage, generation: nat, keep: KeepFor) returns (acts: seq<Action>, s': State)
    requires Inv(s) && t < |s.tasks| && s.tasks[t] == Tear(at, ThenKeep(generation, keep))
    ensures Gets(s, acts, s', t) && s'.work == s.work
    ensures s'.tasks[t] == KeptSpec(keep, at != TookDown(false))
  {
    acts, s' := [], s;
    assert Exec(s, []) == s;
    if at.Draining? {
      acts, s' := TearsDown(s, t, ThenKeep(generation, keep));
    } else if at.Terminating? {
      TerminateMoves(s, t, at.server, ThenKeep(generation, keep));
      acts, s' := GetsOn(s, acts, s', t);
    }
    KeepMoves(s', t, at != TookDown(false), generation, keep);
    acts, s' := GetsOn(s, acts, s', t);
  }

  /** The crash teardown of a runner comes to record the failure. */
  lemma CrashComesToFail(s: State, t: TaskId, job: JobId) returns (acts: seq<Action>, s': State)
    requires Inv(s) && t < |s.tasks| && s.tasks[t].Tear? && Losing(s.tasks[t], job)
    ensures Gets(s, acts, s', t) && s'.work == s.work && s'.tasks[t] == Runs(RunEnding(Failed), job)
  {
    acts, s' := KeepsSpec(s, t, s.tasks[t].tear, s.tasks[t].k.generation, CrashOf(job));
    acts, s' := GetsOn(s, acts, s', t);
  }

  lemma DiagnosisMoves(s: State, t: TaskId, server: Server, job: JobId)
    requires t < |s.tasks| && s.tasks[t] == Runs(Diagnosing(server), job)
    ensures Moves(s, StepTask(s, t, GO), t,
                  if s.slots.session == Some(server) then Tear(Draining, ThenKeep(s.generation, CrashOf(job)))
                  else Runs(RunEnding(Failed), job))
  {
  }

  /** A runner that has lost its server comes to record the failure. */
  lemma ComesToFail(s: State, t: TaskId, job: JobId) returns (acts: seq<Action>, s': State)
    requires Inv(s) && t < |s.tasks| && Losing(s.tasks[t], job)
    ensures Gets(s, acts, s', t) && s'.work == s.work && s'.tasks[t] == Runs(RunEnding(Failed), job)
  {
    acts, s' := [], s;
    assert Exec(s, []) == s;
    if s.tasks[t].Tear? {
      acts, s' := CrashComesToFail(s, t, job);
    } else if s.tasks[t].KeptSpec? {
      acts, s' := GetsOn(s, acts, s', t);
    } else if s.tasks[t].run.Diagnosing? {
      DiagnosisMoves(s, t, s.tasks[t].run.server, job);
      acts, s' := GetsOn(s, acts, s', t);
      if s'.tasks[t].Tear? {
        var more, s2 := CrashComesToFail(s', t, job);
        ExecAppend(s, acts, more);
        acts, s' := acts + more, s2;
      }
    }
  }

  lemma Fails(s: State, t: TaskId, job: JobId) returns (acts: seq<Action>, s': State)
    requires Inv(s) && t < |s.tasks| && Losing(s.tasks[t], job) && Live(s.work.table, job)
    ensures Gets(s, acts, s', t) && job in s'.work.table.jobs && s'.work.table.jobs[job].state == Failed
  {
    acts, s' := ComesToFail(s, t, job);
    acts, s' := GetsOn(s, acts, s', t);
  }

  /** The cancel comes to answer `true`; a job that is over stays as it is. */
  lemma AnswersTrue(s: State, t: TaskId, generation: nat, job: JobId, caller: Caller) returns (acts: seq<Action>, s': State)
    requires Inv(s) && t < |s.tasks| && s.tasks[t] == Tear(Draining, ThenKeep(generation, CancelOf(job, caller)))
    requires !Live(s.work.table, job)
    ensures Gets(s, acts, s', t) && s'.work == s.work && s'.tasks[t] == CancelSettled(job, caller, Some(true))
  {
    acts, s' := KeepsSpec(s, t, Draining, generation, CancelOf(job, caller));
    acts, s' := GetsOn(s, acts, s', t);
  }

  /** The cancel has answered `cancelled: true`, and the record of its job says `failed`. */
  predicate Misreports(s: State, acts: seq<Action>, t: TaskId, job: JobId) {
    var s' := Exec(s, acts);
    && t < |s'.tasks| && s'.tasks[t].CancelSettled? && s'.tasks[t].job == job && s'.tasks[t].answer == Some(true)
    && job in s'.work.table.jobs && s'.work.table.jobs[job].state.Failed?
  }

  lemma LosingMisreports(s: State, r: TaskId, t: TaskId, generation: nat, job: JobId, caller: Caller) returns (acts: seq<Action>)
    requires Inv(s) && r < |s.tasks| && t < |s.tasks| && r != t && Losing(s.tasks[r], job) && Live(s.work.table, job)
    requires s.tasks[t] == Tear(Draining, ThenKeep(generation, CancelOf(job, caller)))
    ensures Misreports(s, acts, t, job)
  {
    var first, s1 := Fails(s, r, job);
    var second, s2 := AnswersTrue(s1, t, generation, job, caller);
    ExecAppend(s, first, second);
    acts := first + second;
  }

  // --- the answer of a cancel made while the engine generates ----------------------------------

  lemma InitStages(idleEnabled: bool)
    ensures StagesOk(Init(idleEnabled))
  {
  }

  /**
   * A cancel of a generating job, by whoever, can answer `cancelled: true` for a job recorded as
   * failed if and only if the job's runner has already lost its server or its request; otherwise the
   * job can only end as cancelled, however the run goes on.
   */
  lemma MisreportIff(idleEnabled: bool, before: seq<Action>, a: Action, job: JobId)
    requires var s := Reached(idleEnabled, before);
      EntersCancel(s, a, job) && Live(s.work.table, job) && s.work.table.jobs[job].phase.Running?
    ensures var s := Reached(idleEnabled, before);
      && job in s.work.runner && s.work.runner[job] < |s.tasks|
      && (Losing(s.tasks[s.work.runner[job]], job) <==>
            exists after: seq<Action> :: Misreports(Next(s, a), after, CancellerOf(s, a), job))
  {
    var s := Reached(idleEnabled, before);
    InitOk(idleEnabled);
    InitStages(idleEnabled);
    ReachedOk(idleEnabled, before);
    ExecStages(Init(idleEnabled), before);
    var r, t := s.work.runner[job], CancellerOf(s, a);
    NextOk(s, a);
    var generation, caller := EntersTeardown(s, a, job);
    RunnerIsNotCanceller(s, a, job);
    if Losing(s.tasks[r], job) {
      var after := LosingMisreports(Next(s, a), r, t, generation, job, caller);
      assert Misreports(Next(s, a), after, t, job);
    } else {
      CancelledForGood(s, Next(s, a), r, job);
      forall after: seq<Action>
        ensures !Misreports(Next(s, a), after, t, job)
      {
        ExecEndsCancelled(Next(s, a), after, job);
      }
    }
  }

  lemma RunnerIsNotCanceller(s: State, a: Action, job: JobId)
    requires EntersCancel(s, a, job) && StagesOk(s) && Live(s.work.table, job)
    ensures s.work.runner[job] != CancellerOf(s, a)
  {
    assert RunnerOf(s.tasks[s.work.runner[job]]) == Some(job);
  }

  lemma CancelledForGood(s: State, s': State, r: TaskId, job: JobId)
    requires Inv(s) && Live(s.work.table, job) && job in s.work.runner && s.work.runner[job] == r && r < |s.tasks|
    requires Posted(s.tasks[r], job) && !Losing(s.tasks[r], job)
    requires s'.work == Request(s.work, job) && r < |s'.tasks| && s'.tasks[r] == s.tasks[r]
    ensures EndsCancelled(s', job)
  {
  }
}
