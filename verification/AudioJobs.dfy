// The bounded job table of the audio module (src/audio/state.ts) and the two ways a job moves
// through it: a phase change and the single transition to a terminal state (src/audio/jobs.ts).
//
// `Table` is the abstract value; class `AudioState` is the object that updates it in place.

module AudioJobs {
  import opened Options

  /** Ids come from a counter: `randomUUID` never repeats one. */
  type JobId = nat

  const JOB_HISTORY: nat := 50

  datatype JobState = Queued | Generating | Completed | Failed | Cancelled

  datatype Phase = InQueue | Loading | Running | Saving

  datatype Job = Job(state: JobState, phase: Phase)

  datatype Table = Table(jobs: map<JobId, Job>, order: seq<JobId>, active: Option<JobId>)

  predicate Terminal(s: JobState) {
    s.Completed? || s.Failed? || s.Cancelled?
  }

  /** A job that is in the table and not over. */
  predicate Live(tb: Table, id: JobId) {
    id in tb.jobs && !Terminal(tb.jobs[id].state)
  }

  ghost predicate Distinct(order: seq<JobId>) {
    forall i, j :: 0 <= i < j < |order| ==> order[i] != order[j]
  }

  /**
   * The table law: table and order list hold the same ids, each once and at most `JOB_HISTORY` of
   * them, and `active` names a job exactly when it is the one job that is not over.
   */
  ghost predicate Valid(tb: Table) {
    && Distinct(tb.order)
    && (forall id: JobId :: id in tb.order <==> id in tb.jobs)
    && |tb.order| <= JOB_HISTORY
    && (forall id: JobId :: Live(tb, id) <==> tb.active == Some(id))
  }

  // --- the operations as functions of the table ------------------------------------------------

  function Ids(order: seq<JobId>): set<JobId> {
    set id | id in order
  }

  function Overflow(order: seq<JobId>): (n: nat)
    ensures n <= |order|
  {
    if |order| > JOB_HISTORY then |order| - JOB_HISTORY else 0
  }

  /** `insertJob`: append, shift the oldest ids out of both collections, store the record. */
  function Inserted(tb: Table, id: JobId, job: Job): Table {
    var order := tb.order + [id];
    var n := Overflow(order);
    tb.(order := order[n..], jobs := (tb.jobs - Ids(order[..n]))[id := job])
  }

  /** The registration in `startAudioJob`: the id becomes active and its record is inserted. */
  function Registered(tb: Table, id: JobId): Table {
    Inserted(tb.(active := Some(id)), id, Job(Queued, InQueue))
  }

  /** `setJobPhase`: never out of a terminal state. */
  function PhaseSet(tb: Table, id: JobId, phase: Phase): Table {
    if !Live(tb, id) then tb
    else
      var job := tb.jobs[id];
      var state := if (phase.Running? || phase.Saving?) && job.state.Queued? then Generating else job.state;
      tb.(jobs := tb.jobs[id := Job(state, phase)])
  }

  /** `finishAudioJob`: terminal exactly once; a job that left the table is left alone. */
  function Finished(tb: Table, id: JobId, result: JobState): Table {
    if !Live(tb, id) then tb
    else
      tb.(jobs := tb.jobs[id := tb.jobs[id].(state := result)],
          active := if tb.active == Some(id) then None else tb.active)
  }

  // --- what they keep --------------------------------------------------------------------------

  /** Registering while nothing is active keeps the law, and only jobs that are over are evicted. */
  lemma RegisteredKeepsLaw(tb: Table, id: JobId)
    requires Valid(tb) && tb.active.None? && id !in tb.jobs
    ensures Valid(Registered(tb, id))
    ensures Live(Registered(tb, id), id)
    ensures forall x: JobId :: x in tb.jobs && x !in Registered(tb, id).jobs ==> Terminal(tb.jobs[x].state)
    ensures forall x: JobId :: x in Registered(tb, id).jobs && x != id ==> x in tb.jobs && Registered(tb, id).jobs[x] == tb.jobs[x]
  {
    var order := tb.order + [id];
    var n := Overflow(order);
    var tb' := Registered(tb, id);
    assert id !in tb.order;
    assert tb'.order == order[n..];
    forall x: JobId | x in tb.jobs && x !in tb'.jobs
      ensures Terminal(tb.jobs[x].state)
    {
      assert tb.active != Some(x);
    }
    forall x: JobId
      ensures x in tb'.order <==> x in tb'.jobs
    {
      OrderSplit(order, n, x);
    }
    forall x: JobId
      ensures Live(tb', x) <==> tb'.active == Some(x)
    {
      if x != id && x in tb'.jobs {
        assert tb.active != Some(x);
      }
    }
  }

  /** Taking one more id out of the front. */
  lemma RemovedMore(jobs: map<JobId, Job>, all: seq<JobId>, n: nat)
    requires n < |all|
    ensures jobs - Ids(all[..n]) - {all[n]} == jobs - Ids(all[..n + 1])
    ensures all[n..][1..] == all[n + 1..]
  {
    assert all[..n + 1] == all[..n] + [all[n]];
    assert Ids(all[..n + 1]) == Ids(all[..n]) + {all[n]};
  }

  /** In a list without repetitions an id is either in the part shifted out or in the part kept. */
  lemma OrderSplit(order: seq<JobId>, n: nat, x: JobId)
    requires n <= |order| && Distinct(order)
    ensures x in order <==> (x in order[..n] || x in order[n..])
    ensures !(x in order[..n] && x in order[n..])
  {
    assert order == order[..n] + order[n..];
  }

  lemma PhaseSetKeepsLaw(tb: Table, id: JobId, phase: Phase)
    requires Valid(tb)
    ensures Valid(PhaseSet(tb, id, phase))
    ensures forall x: JobId :: Live(PhaseSet(tb, id, phase), x) <==> Live(tb, x)
  {
    var tb' := PhaseSet(tb, id, phase);
    assert forall x: JobId :: x in tb'.jobs <==> x in tb.jobs;
    forall x: JobId
      ensures Live(tb', x) <==> Live(tb, x)
    {
    }
  }

  /** Finishing frees the slot, and a job that is over keeps the state it ended in. */
  lemma FinishedKeepsLaw(tb: Table, id: JobId, result: JobState)
    requires Valid(tb) && Terminal(result)
    ensures Valid(Finished(tb, id, result))
    ensures !Live(Finished(tb, id, result), id)
    ensures forall x: JobId :: x in tb.jobs && Terminal(tb.jobs[x].state) ==>
      x in Finished(tb, id, result).jobs && Finished(tb, id, result).jobs[x] == tb.jobs[x]
  {
    var tb' := Finished(tb, id, result);
    assert forall x: JobId :: x in tb'.jobs <==> x in tb.jobs;
    forall x: JobId
      ensures Live(tb', x) <==> tb'.active == Some(x)
    {
      assert Live(tb, x) <==> tb.active == Some(x);
    }
  }

  // --- the object ------------------------------------------------------------------------------

  /** The fields of `AudioState` that hold the jobs and the idle deadline. */
  class AudioState {
    var jobs: map<JobId, Job>
    var jobOrder: seq<JobId>
    var activeJobId: Option<JobId>
    var idleUnloadSecs: nat
    var idleDeadline: Option<int>

    ghost function Contents(): Table
      reads this
    {
      Table(jobs, jobOrder, activeJobId)
    }

    constructor (idleUnloadSecs: nat)
      ensures Valid(Contents()) && Contents() == Table(map[], [], None)
      ensures idleDeadline.None? && this.idleUnloadSecs == idleUnloadSecs
    {
      jobs, jobOrder, activeJobId := map[], [], None;
      this.idleUnloadSecs := idleUnloadSecs;
      idleDeadline := None;
    }

    method InsertJob(id: JobId, job: Job)
      modifies this`jobs, this`jobOrder
      ensures Contents() == Inserted(old(Contents()), id, job)
    {
      jobOrder := jobOrder + [id];
      ghost var all := jobOrder;
      ghost var n := 0;
      while |jobOrder| > JOB_HISTORY
        invariant 0 <= n <= Overflow(all)
        invariant jobOrder == all[n..]
        invariant jobs == old(jobs) - Ids(all[..n])
      {
        var oldest := jobOrder[0];
        jobOrder := jobOrder[1..];
        jobs := jobs - {oldest};
        RemovedMore(old(jobs), all, n);
        n := n + 1;
      }
      jobs := jobs[id := job];
    }

    /** `startAudioJob` past its checks: the id is fresh and no job is active. */
    method Register(id: JobId)
      requires Valid(Contents()) && activeJobId.None? && id !in jobs
      modifies this
      ensures Contents() == Registered(old(Contents()), id)
      ensures Valid(Contents()) && Live(Contents(), id)
      ensures idleDeadline.None? && idleUnloadSecs == old(idleUnloadSecs)
    {
      RegisteredKeepsLaw(Contents(), id);
      activeJobId := Some(id);
      idleDeadline := None;
      InsertJob(id, Job(Queued, InQueue));
    }

    method SetJobPhase(id: JobId, phase: Phase)
      requires Valid(Contents())
      modifies this`jobs
      ensures Contents() == PhaseSet(old(Contents()), id, phase)
      ensures Valid(Contents())
    {
      PhaseSetKeepsLaw(Contents(), id, phase);
      if id !in jobs || Terminal(jobs[id].state) {
        return;
      }
      var job := jobs[id].(phase := phase);
      if (phase.Running? || phase.Saving?) && job.state.Queued? {
        job := job.(state := Generating);
      }
      jobs := jobs[id := job];
    }

    method FinishAudioJob(id: JobId, result: JobState) returns (transitioned: bool)
      requires Valid(Contents()) && Terminal(result)
      modifies this`jobs, this`activeJobId
      ensures Contents() == Finished(old(Contents()), id, result)
      ensures Valid(Contents())
      ensures transitioned <==> old(Live(Contents(), id))
    {
      FinishedKeepsLaw(Contents(), id, result);
      transitioned := false;
      if id in jobs && !Terminal(jobs[id].state) {
        transitioned := true;
        jobs := jobs[id := jobs[id].(state := result)];
        if activeJobId == Some(id) {
          activeJobId := None;
        }
      }
    }

    /** The countdown to the idle unload starts over, if there is one. */
    method TouchIdle(now: int)
      modifies this`idleDeadline
      ensures idleDeadline.Some? <==> idleUnloadSecs != 0
      ensures forall later :: IdleExpired(later) <==> idleUnloadSecs != 0 && later - now >= 1000 * idleUnloadSecs
    {
      idleDeadline := if idleUnloadSecs == 0 then None else Some(now + idleUnloadSecs * 1000);
    }

    predicate IdleExpired(now: int)
      reads this
    {
      idleDeadline.Some? && now >= idleDeadline.value
    }
  }
}
