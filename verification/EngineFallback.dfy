// Starting the first installed build that runs (src/decision/engine-fallback.ts): resolve, spawn, hand a
// build that will not run back to the gate, and again. The files do not change during a start.

module EngineFallback {
  import opened Options
  import opened Text
  import opened DecisionEngine

  const MAX_ENGINE_ATTEMPTS := 8

  /** What comes of handing a build to `spawn`; a start stopped meanwhile counts as another error. */
  datatype Spawned = Started(handle: nat) | Refused(details: string) | Died(message: string) | OtherError(error: string)

  type Spawn = string -> Spawned

  datatype Outcome =
    | Running(candidate: Candidate, handle: nat)
    | SpawnError(failure: Spawned)      // the error of the last build is the start's
    | CrashReport(message: string)      // no build is left: the last crash, not "no build can run the model"
    | NoEngine(gate: Resolved)          // what the gate threw

  /** The gate as a start finds it. */
  datatype Gate = Gate(probe: Probe, rejected: Rejections, files: Files, flags: seq<string>) {
    function Refusal(path: string): Option<Refusal> {
      RefusalOf(probe, rejected, files, path, flags)
    }

    predicate Pass(path: string) {
      Refusal(path).None?
    }

    function All(cs: seq<Candidate>): (rs: seq<Option<Refusal>>)
      ensures |rs| == |cs|
    {
      Refusals(probe, rejected, files, flags, cs)
    }
  }

  // --- one left-to-right scan ------------------------------------------------------------------

  /** The candidates that pass the gate, the first of each path, in order. */
  function Eligible(g: Gate, cs: seq<Candidate>, seen: set<string>): seq<Candidate> {
    if cs == [] then []
    else if cs[0].path in seen || !g.Pass(cs[0].path) then Eligible(g, cs[1..], seen)
    else [cs[0]] + Eligible(g, cs[1..], seen + {cs[0].path})
  }

  /** Listed builds of one start: each passes, none was seen, no path is listed twice. */
  predicate Listed(g: Gate, es: seq<Candidate>, cs: seq<Candidate>, seen: set<string>) {
    && (forall i :: 0 <= i < |es| ==> es[i] in cs && es[i].path !in seen && g.Pass(es[i].path))
    && (forall i, j :: 0 <= i < j < |es| ==> es[i].path != es[j].path)
  }

  /** One more build in front. */
  lemma ListedCons(g: Gate, c: Candidate, rest: seq<Candidate>, cs: seq<Candidate>, seen: set<string>)
    requires cs != [] && cs[0] == c && c.path !in seen && g.Pass(c.path) && Listed(g, rest, cs[1..], seen + {c.path})
    ensures Listed(g, [c] + rest, cs, seen)
  {
    forall i | 0 <= i < |[c] + rest|
      ensures var e := ([c] + rest)[i]; e in cs && e.path !in seen && g.Pass(e.path)
    {
      assert i > 0 ==> ([c] + rest)[i] == rest[i - 1] && rest[i - 1] in cs[1..];
    }
    forall i, j | 0 <= i < j < |[c] + rest|
      ensures ([c] + rest)[i].path != ([c] + rest)[j].path
    {
      assert ([c] + rest)[j] == rest[j - 1];
      assert i > 0 ==> ([c] + rest)[i] == rest[i - 1];
    }
  }

  lemma ListedTail(g: Gate, rest: seq<Candidate>, cs: seq<Candidate>, seen: set<string>)
    requires cs != [] && Listed(g, rest, cs[1..], seen)
    ensures Listed(g, rest, cs, seen)
  {
    forall i | 0 <= i < |rest|
      ensures rest[i] in cs
    {
      assert rest[i] in cs[1..];
    }
  }

  lemma {:induction false} EligibleListed(g: Gate, cs: seq<Candidate>, seen: set<string>)
    ensures Listed(g, Eligible(g, cs, seen), cs, seen)
    decreases |cs|
  {
    if cs != [] {
      var c := cs[0];
      if c.path in seen || !g.Pass(c.path) {
        EligibleListed(g, cs[1..], seen);
        ListedTail(g, Eligible(g, cs[1..], seen), cs, seen);
      } else {
        EligibleListed(g, cs[1..], seen + {c.path});
        ListedCons(g, c, Eligible(g, cs[1..], seen + {c.path}), cs, seen);
      }
    }
  }

  /** Every path that passes is among them. */
  lemma {:induction false} EligibleComplete(g: Gate, cs: seq<Candidate>, seen: set<string>, c: Candidate) returns (i: nat)
    requires c in cs && c.path !in seen && g.Pass(c.path)
    ensures var es := Eligible(g, cs, seen); i < |es| && es[i].path == c.path
    decreases |cs|
  {
    i := 0;
    if cs[0].path in seen || !g.Pass(cs[0].path) {
      i := EligibleComplete(g, cs[1..], seen, c);
    } else if cs[0].path != c.path {
      var j := EligibleComplete(g, cs[1..], seen + {cs[0].path}, c);
      i := j + 1;
    }
  }

  /** Candidates that were tried or do not pass add nothing. */
  lemma {:induction false} EligibleSkips(g: Gate, cs: seq<Candidate>, seen: set<string>, i: nat)
    requires i <= |cs| && forall j :: 0 <= j < i ==> cs[j].path in seen || !g.Pass(cs[j].path)
    ensures Eligible(g, cs, seen) == Eligible(g, cs[i..], seen)
    decreases i
  {
    if i > 0 {
      EligibleSkips(g, cs[1..], seen, i - 1);
      assert cs[1..][i - 1..] == cs[i..];
    } else {
      assert cs[0..] == cs;
    }
  }

  predicate WillNotRun(s: Spawned) {
    s.Refused? || s.Died?
  }

  /** Each of these was spawned, would not run, and the start went on. */
  predicate AllSkipped(spawned: seq<Candidate>, spawn: Spawn, fallback: bool) {
    forall j :: 0 <= j < |spawned| ==> fallback && WillNotRun(spawn(spawned[j].path))
  }

  /** The last crash among builds that were spawned and skipped. */
  function LastCrash(es: seq<Candidate>, spawn: Spawn): Option<string> {
    if es == [] then None
    else
      var last := spawn(es[|es| - 1].path);
      if last.Died? then Some(last.message) else LastCrash(es[..|es| - 1], spawn)
  }

  /** A probe that failed, and none before it. */
  predicate FirstProbeError(rs: seq<Option<Refusal>>, i: nat) {
    && i < |rs| && rs[i].Some? && rs[i].value.ProbeFailed?
    && forall j :: 0 <= j < i ==> rs[j].None? || !rs[j].value.ProbeFailed?
  }

  predicate NoProbeError(rs: seq<Option<Refusal>>) {
    forall j :: 0 <= j < |rs| ==> rs[j].None? || !rs[j].value.ProbeFailed?
  }

  /** What the gate is told of a build that would not run. */
  function WhyNot(s: Spawned): string {
    match s
    case Died(message) => message
    case Refused(details) => details
    case _ => ""
  }

  /** What the gate lists for each candidate: why it would not run, or what was against it before. */
  predicate IsTried(rs: seq<Option<Refusal>>, cs: seq<Candidate>, spawn: Spawn, tried: seq<Refusal>) {
    && |tried| == |rs| == |cs|
    && forall j :: 0 <= j < |rs| ==>
         tried[j] == if rs[j].None? then RefusedAtReadiness(WhyNot(spawn(cs[j].path))) else rs[j].value
  }

  /** What a start ends with once every eligible build was spawned and skipped. */
  ghost predicate Exhausted(rs: seq<Option<Refusal>>, cs: seq<Candidate>, spawn: Spawn, crash: Option<string>, out: Outcome) {
    match out
    case CrashReport(message) => crash == Some(message) && NoProbeError(rs)
    case NoEngine(NotChecked(e)) => exists i: nat :: FirstProbeError(rs, i) && e == rs[i].value.error
    case NoEngine(Unsupported(tried, atReadiness)) =>
      crash.None? && NoProbeError(rs) && IsTried(rs, cs, spawn, tried) && atReadiness == ReadinessCount(tried)
    case _ => false
  }

  /**
   * A start as one left-to-right scan: `spawned` is a prefix of the eligible builds in which only the
   * last may run, and the outcome is what that last one, the limit or the end of the list calls for.
   */
  ghost predicate IsScan(rs: seq<Option<Refusal>>, cs: seq<Candidate>, es: seq<Candidate>, spawn: Spawn, fallback: bool,
                         spawned: seq<Candidate>, out: Outcome) {
    var n := |spawned|;
    && n <= MAX_ENGINE_ATTEMPTS && spawned <= es
    && (n > 0 ==> AllSkipped(spawned[..n - 1], spawn, fallback))
    && (match out
        case Running(c, h) => n > 0 && c == spawned[n - 1] && spawn(c.path) == Started(h)
        case SpawnError(f) =>
          && n > 0 && f == spawn(spawned[n - 1].path) && !f.Started?
          && (!WillNotRun(f) || !fallback || n == MAX_ENGINE_ATTEMPTS)
        case _ =>
          && spawned == es && n < MAX_ENGINE_ATTEMPTS && AllSkipped(spawned, spawn, fallback)
          && Exhausted(rs, cs, spawn, LastCrash(spawned, spawn), out))
  }

  /** A start cannot stop where another would go on. */
  lemma ScanIsLongest(rs: seq<Option<Refusal>>, cs: seq<Candidate>, es: seq<Candidate>, spawn: Spawn, fallback: bool,
                      spawned: seq<Candidate>, out: Outcome, spawned': seq<Candidate>, out': Outcome)
    requires IsScan(rs, cs, es, spawn, fallback, spawned, out) && IsScan(rs, cs, es, spawn, fallback, spawned', out')
    ensures |spawned'| <= |spawned|
  {
    var n := |spawned|;
    assert forall j :: 0 <= j < |spawned'| - 1 ==> spawned'[..|spawned'| - 1][j] == es[j];
    assert n > 0 ==> spawned[n - 1] == es[n - 1];
  }

  /** There is only one scan: the builds it spawns and what it ends with are decided by the candidates. */
  lemma ScanIsUnique(rs: seq<Option<Refusal>>, cs: seq<Candidate>, es: seq<Candidate>, spawn: Spawn, fallback: bool,
                     spawned: seq<Candidate>, out: Outcome, spawned': seq<Candidate>, out': Outcome)
    requires IsScan(rs, cs, es, spawn, fallback, spawned, out) && IsScan(rs, cs, es, spawn, fallback, spawned', out')
    ensures spawned == spawned' && out == out'
  {
    ScanIsLongest(rs, cs, es, spawn, fallback, spawned, out, spawned', out');
    ScanIsLongest(rs, cs, es, spawn, fallback, spawned', out', spawned, out);
    assert spawned == es[..|spawned|] && spawned' == es[..|spawned'|];
    if out.NoEngine? && out'.NoEngine? && out.gate.NotChecked? && out'.gate.NotChecked? {
      var i: nat :| FirstProbeError(rs, i) && out.gate.error == rs[i].value.error;
      var j: nat :| FirstProbeError(rs, j) && out'.gate.error == rs[j].value.error;
      assert i == j;
    } else if out.NoEngine? && out'.NoEngine? && out.gate.Unsupported? && out'.gate.Unsupported? {
      assert forall j :: 0 <= j < |rs| ==> out.gate.tried[j] == out'.gate.tried[j];
      assert out.gate.tried == out'.gate.tried;
    }
  }

  // --- the gate during a start -----------------------------------------------------------------

  /** Since the start began the gate has only turned against these paths, for what became of them. */
  ghost predicate OnlyTurnedAgainst(dead: set<string>, files: Files, before: Rejections, now: Rejections, spawn: Spawn) {
    forall p: string :: p in files ==>
      var key := (p, files[p]);
      if p in dead then key in now && now[key] == WhyNot(spawn(p))
      else (key in now <==> key in before) && (key in now ==> now[key] == before[key])
  }

  lemma RefusalNow(g: Gate, dead: set<string>, now: Rejections, spawn: Spawn, p: string)
    requires OnlyTurnedAgainst(dead, g.files, g.rejected, now, spawn) && (p in dead ==> p in g.files)
    ensures var refusal := g.(rejected := now).Refusal(p);
      if p in dead then refusal == Some(RefusedAtReadiness(WhyNot(spawn(p)))) else refusal == g.Refusal(p)
  {
  }

  /** The builds spawned so far are the eligible ones up to candidate `k`; the gate skips them now. */
  ghost predicate Underway(g: Gate, now: Rejections, spawn: Spawn, cs: seq<Candidate>, k: nat, dead: set<string>,
                           spawned: seq<Candidate>) {
    && k <= |cs| && Eligible(g, cs, {}) == spawned + Eligible(g, cs[k..], dead)
    && OnlyTurnedAgainst(dead, g.files, g.rejected, now, spawn)
    && (forall p: string :: p in dead ==> p in g.files && g.Pass(p))
    && (forall j :: 0 <= j < k ==> cs[j].path in dead || !g.Pass(cs[j].path))
  }

  /** What the gate chooses passed when the start began and was not spawned; everything before did not, or was. */
  lemma ChosenAt(g: Gate, now: Rejections, spawn: Spawn, cs: seq<Candidate>, k: nat, dead: set<string>, spawned: seq<Candidate>,
                 r: Resolved) returns (i: nat)
    requires Underway(g, now, spawn, cs, k, dead, spawned) && r.Chosen? && Answers(g.(rejected := now).All(cs), cs, r)
    ensures k <= i < |cs| && cs[i] == r.candidate && r.candidate.path !in dead && g.Pass(r.candidate.path)
    ensures forall j :: 0 <= j < i ==> cs[j].path in dead || !g.Pass(cs[j].path)
  {
    var rs := g.(rejected := now).All(cs);
    i :| FirstPass(rs, i) && r.candidate == cs[i];
    forall j | 0 <= j < i
      ensures cs[j].path in dead || !g.Pass(cs[j].path)
    {
      assert rs[j].Some?;
      RefusalNow(g, dead, now, spawn, cs[j].path);
    }
    RefusalNow(g, dead, now, spawn, cs[i].path);
  }

  /** The first candidate from `k` on that passes and is new leads the rest of the eligible ones. */
  lemma EligibleFrom(g: Gate, cs: seq<Candidate>, k: nat, dead: set<string>, i: nat)
    requires k <= i < |cs| && cs[i].path !in dead && g.Pass(cs[i].path)
    requires forall j :: 0 <= j < i ==> cs[j].path in dead || !g.Pass(cs[j].path)
    ensures Eligible(g, cs[k..], dead) == [cs[i]] + Eligible(g, cs[i + 1..], dead + {cs[i].path})
  {
    DropDrop(cs, k, i);
    DropDrop(cs, i, i + 1);
    EligibleSkips(g, cs[k..], dead, i - k);
  }

  lemma TurnedToo(g: Gate, now: Rejections, spawn: Spawn, dead: set<string>, p: string)
    requires OnlyTurnedAgainst(dead, g.files, g.rejected, now, spawn) && p in g.files
    ensures OnlyTurnedAgainst(dead + {p}, g.files, g.rejected, now[(p, g.files[p]) := WhyNot(spawn(p))], spawn)
  {
  }

  /** One round of the loop: spawn the gate's choice and turn the gate against it. */
  lemma Advance(g: Gate, now: Rejections, spawn: Spawn, cs: seq<Candidate>, k: nat, dead: set<string>, spawned: seq<Candidate>, r: Resolved)
    returns (i: nat)
    requires Underway(g, now, spawn, cs, k, dead, spawned) && r.Chosen? && Answers(g.(rejected := now).All(cs), cs, r)
    ensures var p := r.candidate.path;
      p in g.files && Underway(g, now[(p, g.files[p]) := WhyNot(spawn(p))], spawn, cs, i + 1, dead + {p}, spawned + [r.candidate])
    ensures spawned + [r.candidate] <= Eligible(g, cs, {})
  {
    i := ChosenAt(g, now, spawn, cs, k, dead, spawned, r);
    EligibleFrom(g, cs, k, dead, i);
    Assoc(spawned, [cs[i]], Eligible(g, cs[i + 1..], dead + {cs[i].path}));
    TurnedToo(g, now, spawn, dead, r.candidate.path);
  }

  /** Where the gate refuses everything, what it said of each candidate when the start began. */
  lemma RefusedNow(g: Gate, now: Rejections, spawn: Spawn, cs: seq<Candidate>, k: nat, dead: set<string>, spawned: seq<Candidate>, r: Resolved,
                   j: nat)
    requires Underway(g, now, spawn, cs, k, dead, spawned) && !r.Chosen? && Answers(g.(rejected := now).All(cs), cs, r) && j < |cs|
    ensures var refusal, refusal' := g.All(cs)[j], g.(rejected := now).All(cs)[j];
      && refusal'.Some?
      && if cs[j].path in dead then refusal.None? && refusal'.value == RefusedAtReadiness(WhyNot(spawn(cs[j].path))) else refusal' == refusal
  {
    RefusalNow(g, dead, now, spawn, cs[j].path);
  }

  /** When the gate has nothing left every eligible build was spawned. */
  lemma AllSpawned(g: Gate, now: Rejections, spawn: Spawn, cs: seq<Candidate>, k: nat, dead: set<string>, spawned: seq<Candidate>, r: Resolved)
    requires Underway(g, now, spawn, cs, k, dead, spawned) && !r.Chosen? && Answers(g.(rejected := now).All(cs), cs, r)
    ensures spawned == Eligible(g, cs, {})
  {
    forall j | 0 <= j < |cs|
      ensures cs[j].path in dead || !g.Pass(cs[j].path)
    {
      RefusedNow(g, now, spawn, cs, k, dead, spawned, r, j);
    }
    EligibleSkips(g, cs[k..], dead, |cs| - k);
  }

  /** ... and it says what `Exhausted` says. */
  lemma NothingLeft(g: Gate, now: Rejections, spawn: Spawn, cs: seq<Candidate>, k: nat, dead: set<string>, spawned: seq<Candidate>,
                    r: Resolved, crash: Option<string>)
    requires Underway(g, now, spawn, cs, k, dead, spawned) && !r.Chosen? && Answers(g.(rejected := now).All(cs), cs, r)
    ensures Exhausted(g.All(cs), cs, spawn, crash, if r.Unsupported? && crash.Some? then CrashReport(crash.value) else NoEngine(r))
  {
    var rs, rs' := g.All(cs), g.(rejected := now).All(cs);
    forall j | 0 <= j < |cs|
      ensures rs'[j].Some? && (rs'[j].value.ProbeFailed? <==> rs[j].Some? && rs[j].value.ProbeFailed?)
      ensures rs'[j].value == if rs[j].None? then RefusedAtReadiness(WhyNot(spawn(cs[j].path))) else rs[j].value
    {
      RefusedNow(g, now, spawn, cs, k, dead, spawned, r, j);
    }
    if r.NotChecked? {
      var i: nat :| FirstUnchecked(rs', i) && r.error == rs'[i].value.error;
      assert FirstProbeError(rs, i);
    }
  }

  // --- the start -------------------------------------------------------------------------------

  /** A start that ends with the build it just spawned is a scan up to that build. */
  lemma EndsWithBuild(rs: seq<Option<Refusal>>, cs: seq<Candidate>, es: seq<Candidate>, spawn: Spawn, fallback: bool, before: seq<Candidate>,
                      engine: Candidate)
    requires before + [engine] <= es && |before| < MAX_ENGINE_ATTEMPTS && AllSkipped(before, spawn, fallback)
    ensures var result := spawn(engine.path);
      && (result.Started? ==> IsScan(rs, cs, es, spawn, fallback, before + [engine], Running(engine, result.handle)))
      && (!result.Started? && !(WillNotRun(result) && fallback && |before| + 1 < MAX_ENGINE_ATTEMPTS) ==>
            IsScan(rs, cs, es, spawn, fallback, before + [engine], SpawnError(result)))
  {
    assert (before + [engine])[..|before|] == before;
  }

  lemma SkippedToo(before: seq<Candidate>, engine: Candidate, spawn: Spawn, fallback: bool)
    requires AllSkipped(before, spawn, fallback) && fallback && WillNotRun(spawn(engine.path))
    ensures AllSkipped(before + [engine], spawn, fallback)
    ensures LastCrash(before + [engine], spawn)
         == if spawn(engine.path).Died? then Some(spawn(engine.path).message) else LastCrash(before, spawn)
  {
    assert (before + [engine])[..|before|] == before;
  }

  /** Where the loop stands: some builds spawned and skipped and the last crash among them, or its end. */
  ghost predicate Standing(g: Gate, now: Rejections, spawn: Spawn, fallback: bool, cs: seq<Candidate>, k: nat, dead: set<string>,
                           spawned: seq<Candidate>, crash: Option<string>, result: Option<Outcome>) {
    match result
    case None =>
      && Underway(g, now, spawn, cs, k, dead, spawned) && |spawned| < MAX_ENGINE_ATTEMPTS
      && AllSkipped(spawned, spawn, fallback) && crash == LastCrash(spawned, spawn)
    case Some(out) => IsScan(g.All(cs), cs, Eligible(g, cs, {}), spawn, fallback, spawned, out)
  }

  lemma StartsStanding(g: Gate, spawn: Spawn, fallback: bool, cs: seq<Candidate>)
    ensures Standing(g, g.rejected, spawn, fallback, cs, 0, {}, [], None, None)
  {
    assert cs[0..] == cs;
    assert [] + Eligible(g, cs, {}) == Eligible(g, cs, {});
  }

  /** The gate has nothing left: the start ends. */
  lemma EndsEmpty(g: Gate, now: Rejections, spawn: Spawn, fallback: bool, cs: seq<Candidate>, k: nat, dead: set<string>,
                  spawned: seq<Candidate>, crash: Option<string>, r: Resolved)
    requires Standing(g, now, spawn, fallback, cs, k, dead, spawned, crash, None)
    requires !r.Chosen? && Answers(g.(rejected := now).All(cs), cs, r)
    ensures IsScan(g.All(cs), cs, Eligible(g, cs, {}), spawn, fallback, spawned,
                   if r.Unsupported? && crash.Some? then CrashReport(crash.value) else NoEngine(r))
  {
    AllSpawned(g, now, spawn, cs, k, dead, spawned, r);
    NothingLeft(g, now, spawn, cs, k, dead, spawned, r, crash);
  }

  /** What an attempt makes of the start, unless it goes on. */
  function ResultOf(engine: Candidate, attempt: Spawned, fallback: bool, attempts: nat): Option<Outcome> {
    if attempt.Started? then Some(Running(engine, attempt.handle))
    else if WillNotRun(attempt) && fallback && attempts < MAX_ENGINE_ATTEMPTS then None
    else Some(SpawnError(attempt))
  }

  /** The gate's choice is spawned: the start ends with it, or the loop stands one build further. */
  lemma Round(g: Gate, now: Rejections, spawn: Spawn, fallback: bool, cs: seq<Candidate>, k: nat, dead: set<string>,
              spawned: seq<Candidate>, crash: Option<string>, r: Resolved) returns (i: nat)
    requires Standing(g, now, spawn, fallback, cs, k, dead, spawned, crash, None)
    requires r.Chosen? && Answers(g.(rejected := now).All(cs), cs, r)
    ensures var p, attempt, more := r.candidate.path, spawn(r.candidate.path), spawned + [r.candidate];
      && p in g.files
      && Standing(g, now[(p, g.files[p]) := WhyNot(attempt)], spawn, fallback, cs, i + 1, dead + {p}, more,
                  if attempt.Died? then Some(attempt.message) else crash, ResultOf(r.candidate, attempt, fallback, |more|))
  {
    i := Advance(g, now, spawn, cs, k, dead, spawned, r);
    EndsWithBuild(g.All(cs), cs, Eligible(g, cs, {}), spawn, fallback, spawned, r.candidate);
    if WillNotRun(spawn(r.candidate.path)) && fallback {
      SkippedToo(spawned, r.candidate, spawn, fallback);
    }
  }

  /** Once there is a result, only the builds spawned matter to it. */
  lemma ResultStands(g: Gate, now: Rejections, now': Rejections, spawn: Spawn, fallback: bool, cs: seq<Candidate>, k: nat,
                     dead: set<string>, spawned: seq<Candidate>, crash: Option<string>, result: Option<Outcome>)
    requires Standing(g, now, spawn, fallback, cs, k, dead, spawned, crash, result) && result.Some?
    ensures Standing(g, now', spawn, fallback, cs, k, dead, spawned, crash, result)
  {
  }

  /** One attempt: the gate's choice is spawned, and handed back if it will not run. */
  method Attempt(gate: DecisionEngineResolver, cs: seq<Candidate>, flags: seq<string>, files: Files, spawn: Spawn, fallback: bool,
                 spawned: seq<Candidate>, crash: Option<string>, ghost g: Gate, ghost k: nat, ghost dead: set<string>)
    returns (result: Option<Outcome>, more: seq<Candidate>, last: Option<string>, ghost k': nat, ghost dead': set<string>)
    requires gate.Valid() && g == Gate(gate.probe, g.rejected, files, flags)
    requires Standing(g, gate.rejected, spawn, fallback, cs, k, dead, spawned, crash, None)
    modifies gate
    ensures gate.Valid() && Standing(g, gate.rejected, spawn, fallback, cs, k', dead', more, last, result)
    ensures result.None? ==> |more| == |spawned| + 1
  {
    more, last, k', dead' := spawned, crash, k, dead;
    var r := gate.Resolve(cs, flags, files);
    if !r.Chosen? {
      EndsEmpty(g, gate.rejected, spawn, fallback, cs, k, dead, spawned, crash, r);
      result := Some(if r.Unsupported? && crash.Some? then CrashReport(crash.value) else NoEngine(r));
      return;
    }
    var engine, attempt := r.candidate, spawn(r.candidate.path);
    ghost var i := Round(g, gate.rejected, spawn, fallback, cs, k, dead, spawned, crash, r);
    more := spawned + [engine];
    last := if attempt.Died? then Some(attempt.message) else crash;
    result := ResultOf(engine, attempt, fallback, |more|);
    k', dead' := i + 1, dead + {engine.path};
    if result.None? {
      gate.Reject(engine.path, WhyNot(attempt), files);
    } else {
      ResultStands(g, gate.rejected[(engine.path, files[engine.path]) := WhyNot(attempt)], gate.rejected, spawn, fallback, cs,
                   k', dead', more, last, result);
    }
  }

  /** `spawnOnFirstGoodEngine` over the gate's `resolve` and `reject`. */
  method SpawnOnFirstGoodEngine(gate: DecisionEngineResolver, cs: seq<Candidate>, flags: seq<string>, files: Files,
                                spawn: Spawn, explicit: bool, canReject: bool)
    returns (out: Outcome, spawned: seq<Candidate>)
    requires gate.Valid()
    modifies gate
    ensures gate.Valid()
    ensures var g := Gate(gate.probe, old(gate.rejected), files, flags);
      IsScan(g.All(cs), cs, Eligible(g, cs, {}), spawn, !explicit && canReject, spawned, out)
  {
    ghost var g := Gate(gate.probe, gate.rejected, files, flags);
    ghost var k: nat, dead: set<string> := 0, {};
    var fallback := !explicit && canReject;
    var crash: Option<string> := None;
    var result: Option<Outcome> := None;
    spawned := [];
    StartsStanding(g, spawn, fallback, cs);
    while result.None?
      invariant gate.Valid() && Standing(g, gate.rejected, spawn, fallback, cs, k, dead, spawned, crash, result)
      decreases if result.None? then MAX_ENGINE_ATTEMPTS - |spawned| else -1
    {
      result, spawned, crash, k, dead := Attempt(gate, cs, flags, files, spawn, fallback, spawned, crash, g, k, dead);
    }
    out := result.value;
  }
}
