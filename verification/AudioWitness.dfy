// A run in which `cancelAudioJob` answers `cancelled: true` for a job that ends `failed`: the cancel
// arrives while the runner is finding out why its server went away, and the runner finishes first.
// So the answer of a cancel made while the engine generates says that nothing was kept, not how the
// record ends; AudioCancels states exactly when it can be wrong.

module AudioWitness {
  import opened Options
  import opened AudioJobs
  import opened AudioProtocol
  import opened AudioTheorems
  import opened AudioCancels

  const LOST := Choice(false, false)

  const SERVER := Server(0, 0)

  /** The run so far, one action longer. */
  lemma Then(acts: seq<Action>, s: State, a: Action, s': State) returns (more: seq<Action>)
    requires Reached(true, acts) == s && Next(s, a) == s'
    ensures Reached(true, more) == s'
  {
    ExecAppend(Init(true), acts, [a]);
    assert Exec(s, [a]) == Exec(s', [a][1..]) == s';
    more := acts + [a];
  }

  /** The one load is at this point, before its claim. */
  function LoadingAt(pc: Pc): State {
    Init(true).(lock := Some(0), loading := Some(0), generation := 1, tasks := [pc])
  }

  lemma PreparedRun() returns (acts: seq<Action>)
    ensures Reached(true, acts) == LoadingAt(Preparing)
  {
    acts := [];
    assert Exec(Init(true), []) == Init(true);
    acts := Then(acts, Init(true), CallLoad, Init(true).(tasks := [WantLock(LoadOp)]));
    acts := Then(acts, Init(true).(tasks := [WantLock(LoadOp)]), Run(0, GO), LoadingAt(Tear(Draining, ThenLoad)));
    acts := Then(acts, LoadingAt(Tear(Draining, ThenLoad)), Run(0, GO), LoadingAt(Tear(TookDown(true), ThenLoad)));
    acts := Then(acts, LoadingAt(Tear(TookDown(true), ThenLoad)), Run(0, GO), LoadingAt(Preparing));
  }

  function SpawningAt(at: SpawnStage, slots: Slots): State {
    LoadingAt(Spawn(at, 0, ForRequest)).(generation := 2, modelState := LoadingModel, nextSpec := 1, slots := slots)
  }

  const HELD := Slots(None, Some(0), None, None, {}, {}, 0, 0)
  const LAUNCHED := Slots(None, Some(0), None, Some(SERVER), {0}, {}, 1, 0)
  const UP := Slots(Some(SERVER), None, None, None, {0}, {}, 1, 0)

  /** Server 0 of spec 0 is the session; the load has returned. */
  function Loaded0(): State {
    Init(true).(slots := UP, spec := Some(0), modelState := Loaded, generation := 2, idleArmed := true, nextSpec := 1,
                tasks := [Done])
  }

  lemma SpawnedRun() returns (acts: seq<Action>)
    ensures Reached(true, acts) == SpawningAt(Starting(SERVER), LAUNCHED)
  {
    acts := PreparedRun();
    acts := Then(acts, LoadingAt(Preparing), Run(0, GO), SpawningAt(Announced, Init(true).slots));
    acts := Then(acts, SpawningAt(Announced, Init(true).slots), Run(0, GO), SpawningAt(Claiming, Init(true).slots));
    acts := Then(acts, SpawningAt(Claiming, Init(true).slots), Run(0, GO), SpawningAt(Settling, HELD));
    acts := Then(acts, SpawningAt(Settling, HELD), Run(0, GO), SpawningAt(Starting(SERVER), LAUNCHED));
  }

  lemma LoadedRun() returns (acts: seq<Action>)
    ensures Reached(true, acts) == Loaded0()
  {
    acts := SpawnedRun();
    var ended := Loaded0().(lock := Some(0), loading := Some(0), tasks := [LoadEnded(ForRequest, true, false)]);
    acts := Then(acts, SpawningAt(Starting(SERVER), LAUNCHED), Run(0, GO), ended);
    acts := Then(acts, ended, Run(0, GO), Loaded0());
  }

  /** The job is job 0, its runner task 1. */
  function WorkAt(job: Job, active: Option<JobId>, posted: set<JobId>, requested: set<JobId>): Work {
    Work(Table(map[0 := job], [0], active), requested, map[0 := 1], posted, {}, 1)
  }

  const LIVE := WorkAt(Job(Generating, Running), Some(0), {0}, {})

  function JobAt(slots: Slots, work: Work, run: Pc, cancel: seq<Pc>): State {
    Loaded0().(slots := slots, work := work, idleArmed := false, tasks := [Done, run] + cancel)
  }

  const DOWN := UP.(live := {})

  lemma DiagnosingRun() returns (acts: seq<Action>)
    ensures Reached(true, acts) == JobAt(DOWN, LIVE, Runs(Diagnosing(SERVER), 0), [])
  {
    acts := LoadedRun();
    var queued := WorkAt(Job(Queued, InQueue), Some(0), {}, {});
    acts := Then(acts, Loaded0(), CallStart(false), JobAt(UP, queued, Runs(RunStart, 0), []));
    acts := Then(acts, JobAt(UP, queued, Runs(RunStart, 0), []), Run(1, GO),
                 JobAt(UP, queued, Runs(RunReady(SERVER), 0), []));
    acts := Then(acts, JobAt(UP, queued, Runs(RunReady(SERVER), 0), []), Run(1, GO),
                 JobAt(UP, LIVE, Runs(Posting(SERVER), 0), []));
    acts := Then(acts, JobAt(UP, LIVE, Runs(Posting(SERVER), 0), []), ServerDies(0),
                 JobAt(DOWN, LIVE, Runs(Posting(SERVER), 0), []));
    acts := Then(acts, JobAt(DOWN, LIVE, Runs(Posting(SERVER), 0), []), Run(1, LOST),
                 JobAt(DOWN, LIVE, Runs(Diagnosing(SERVER), 0), []));
  }

  const CRASH := ThenKeep(2, CrashOf(0))
  const CANCEL := ThenKeep(2, CancelOf(0, Client))
  const ASKED := LIVE.(requested := {0})
  const STOPPING := Slots(None, None, Some(Stop(SERVER, 0, 2)), None, {}, {}, 1, 1)
  const GONE := Slots(None, None, None, None, {}, {0}, 1, 1)

  /** The cancel takes the server down; the runner waits behind it. */
  lemma StoppedRun() returns (acts: seq<Action>)
    ensures Reached(true, acts) == JobAt(GONE, ASKED, Tear(Draining, CRASH), [Tear(TookDown(true), CANCEL)])
  {
    acts := DiagnosingRun();
    acts := Then(acts, JobAt(DOWN, LIVE, Runs(Diagnosing(SERVER), 0), []), CallCancel(0),
                 JobAt(DOWN, ASKED, Runs(Diagnosing(SERVER), 0), [Tear(Draining, CANCEL)]));
    acts := Then(acts, JobAt(DOWN, ASKED, Runs(Diagnosing(SERVER), 0), [Tear(Draining, CANCEL)]), Run(1, GO),
                 JobAt(DOWN, ASKED, Tear(Draining, CRASH), [Tear(Draining, CANCEL)]));
    acts := Then(acts, JobAt(DOWN, ASKED, Tear(Draining, CRASH), [Tear(Draining, CANCEL)]), Run(2, GO),
                 JobAt(STOPPING, ASKED, Tear(Draining, CRASH), [Tear(Terminating(SERVER), CANCEL)]));
    acts := Then(acts, JobAt(STOPPING, ASKED, Tear(Draining, CRASH), [Tear(Terminating(SERVER), CANCEL)]), Run(2, GO),
                 JobAt(GONE, ASKED, Tear(Draining, CRASH), [Tear(TookDown(true), CANCEL)]));
  }

  /** The runner comes first after all and ends the job as failed. */
  function FailedAt(run: Pc, cancel: Pc): State {
    JobAt(GONE, ASKED, run, [cancel]).(modelState := LoadFailed)
  }

  const OVER := WorkAt(Job(Failed, Running), None, {0}, {0})

  lemma FailedRun() returns (acts: seq<Action>)
    ensures Reached(true, acts)
         == FailedAt(Runs(RunnerDone, 0), Tear(TookDown(true), CANCEL)).(work := OVER, idleArmed := true)
  {
    acts := StoppedRun();
    var waiting := Tear(TookDown(true), CANCEL);
    acts := Then(acts, JobAt(GONE, ASKED, Tear(Draining, CRASH), [waiting]), Run(1, GO),
                 JobAt(GONE, ASKED, Tear(TookDown(true), CRASH), [waiting]));
    acts := Then(acts, JobAt(GONE, ASKED, Tear(TookDown(true), CRASH), [waiting]), Run(1, GO),
                 FailedAt(KeptSpec(CrashOf(0), true), waiting));
    acts := Then(acts, FailedAt(KeptSpec(CrashOf(0), true), waiting), Run(1, GO),
                 FailedAt(Runs(RunEnding(Failed), 0), waiting));
    acts := Then(acts, FailedAt(Runs(RunEnding(Failed), 0), waiting), Run(1, GO),
                 FailedAt(Runs(RunnerDone, 0), waiting).(work := OVER, idleArmed := true));
  }

  /** A cancel can answer `cancelled: true` for a job whose record says `failed`. */
  lemma CancelledAnswerForFailedJob() returns (acts: seq<Action>)
    ensures var s := Reached(true, acts);
      && |s.tasks| == 3 && s.tasks[2] == CancelSettled(0, Client, Some(true))
      && 0 in s.work.table.jobs && s.work.table.jobs[0].state == Failed
  {
    acts := FailedRun();
    var failed := FailedAt(Runs(RunnerDone, 0), Tear(TookDown(true), CANCEL)).(work := OVER, idleArmed := true);
    var kept := JobAt(GONE, OVER, Runs(RunnerDone, 0), [KeptSpec(CancelOf(0, Client), true)]).(modelState := Unloaded);
    acts := Then(acts, failed, Run(2, GO), kept);
    acts := Then(acts, kept, Run(2, GO), kept.(tasks := [Done, Runs(RunnerDone, 0), CancelSettled(0, Client, Some(true))]));
  }
}
