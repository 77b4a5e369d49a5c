// The gate of the decision engine (src/decision/engine.ts): which installed build to run, with probes
// remembered per file, modification time and flag, and builds refused at readiness skipped until
// their file changes.

module DecisionEngine {
  import opened Options

  /** Path to modification time of the files that exist. */
  type Files = map<string, nat>

  /** Whether `exe -h` lists a flag, or why the probe proved nothing; fixed by file, time and flag. */
  type Probe = (string, nat, string) -> Result<bool, string>

  type Rejections = map<(string, nat), string>

  datatype Refusal = NoSuchFile | RefusedAtReadiness(why: string) | NotListed(flag: string) | ProbeFailed(error: string)

  datatype Candidate = Candidate(path: string, versionBackend: string)

  /** What `resolve` answers or throws. */
  datatype Resolved =
    | Chosen(candidate: Candidate)
    | NotChecked(error: string)                         // the first probe that could not run
    | Unsupported(tried: seq<Refusal>, atReadiness: nat)

  // --- the same answers without a memory -------------------------------------------------------

  /** Probing the flags one by one, afresh. */
  function FlagsRefusal(probe: Probe, exe: string, time: nat, flags: seq<string>): Option<Refusal> {
    if flags == [] then None
    else
      match probe(exe, time, flags[0])
      case Err(e) => Some(ProbeFailed(e))
      case Ok(false) => Some(NotListed(flags[0]))
      case Ok(true) => FlagsRefusal(probe, exe, time, flags[1..])
  }

  function RefusalOf(probe: Probe, rejected: Rejections, files: Files, exe: string, flags: seq<string>): Option<Refusal> {
    if exe !in files then Some(NoSuchFile)
    else if (exe, files[exe]) in rejected then Some(RefusedAtReadiness(rejected[(exe, files[exe])]))
    else FlagsRefusal(probe, exe, files[exe], flags)
  }

  predicate Passes(probe: Probe, rejected: Rejections, files: Files, flags: seq<string>, c: Candidate) {
    RefusalOf(probe, rejected, files, c.path, flags).None?
  }

  /** A build passes exactly when it exists, was not refused and is known to list every flag. */
  lemma {:induction false} PassesIff(probe: Probe, rejected: Rejections, files: Files, flags: seq<string>, c: Candidate)
    ensures Passes(probe, rejected, files, flags, c) <==>
      && c.path in files && (c.path, files[c.path]) !in rejected
      && forall i :: 0 <= i < |flags| ==> probe(c.path, files[c.path], flags[i]) == Ok(true)
    decreases |flags|
  {
    if c.path in files && (c.path, files[c.path]) !in rejected && flags != [] {
      PassesIff(probe, rejected, files, flags[1..], c);
      assert forall i :: 1 <= i < |flags| ==> flags[1..][i - 1] == flags[i];
    }
  }

  /** What one look at each candidate, with nothing remembered, says of it. */
  function Refusals(probe: Probe, rejected: Rejections, files: Files, flags: seq<string>, candidates: seq<Candidate>)
    : (rs: seq<Option<Refusal>>)
    ensures |rs| == |candidates|
  {
    seq(|candidates|, i requires 0 <= i < |candidates| => RefusalOf(probe, rejected, files, candidates[i].path, flags))
  }

  predicate FirstPass(rs: seq<Option<Refusal>>, i: nat) {
    i < |rs| && rs[i].None? && forall j :: 0 <= j < i ==> rs[j].Some?
  }

  predicate FirstUnchecked(rs: seq<Option<Refusal>>, i: nat) {
    && i < |rs| && rs[i].Some? && rs[i].value.ProbeFailed?
    && forall j :: 0 <= j < i ==> rs[j].Some? && !rs[j].value.ProbeFailed?
  }

  function ReadinessCount(tried: seq<Refusal>): nat {
    if tried == [] then 0
    else ReadinessCount(tried[..|tried| - 1]) + (if tried[|tried| - 1].RefusedAtReadiness? then 1 else 0)
  }

  /**
   * The answer the refusals call for: the first candidate that passes; "not checked" when none does
   * and some could not be probed; and "unsupported" only when every one was definitively refused.
   */
  ghost predicate Answers(rs: seq<Option<Refusal>>, candidates: seq<Candidate>, r: Resolved)
    requires |rs| == |candidates|
  {
    match r
    case Chosen(c) => exists i: nat :: FirstPass(rs, i) && c == candidates[i]
    case NotChecked(e) =>
      && (forall j :: 0 <= j < |rs| ==> rs[j].Some?)
      && exists i: nat :: FirstUnchecked(rs, i) && e == rs[i].value.error
    case Unsupported(tried, atReadiness) =>
      && |tried| == |rs| && atReadiness == ReadinessCount(tried)
      && forall j :: 0 <= j < |rs| ==> rs[j] == Some(tried[j]) && !tried[j].ProbeFailed?
  }

  /** There is only one such answer. */
  lemma AnswerIsUnique(rs: seq<Option<Refusal>>, candidates: seq<Candidate>, r: Resolved, r': Resolved)
    requires |rs| == |candidates| && Answers(rs, candidates, r) && Answers(rs, candidates, r')
    ensures r == r'
  {
    if r.Chosen? && r'.Chosen? {
      var i: nat :| FirstPass(rs, i) && r.candidate == candidates[i];
      var j: nat :| FirstPass(rs, j) && r'.candidate == candidates[j];
      assert i == j;
    } else if r.NotChecked? && r'.NotChecked? {
      var i: nat :| FirstUnchecked(rs, i) && r.error == rs[i].value.error;
      var j: nat :| FirstUnchecked(rs, j) && r'.error == rs[j].value.error;
      assert i == j;
    } else if r.Unsupported? && r'.Unsupported? {
      assert forall j :: 0 <= j < |rs| ==> r.tried[j] == r'.tried[j];
      assert r.tried == r'.tried;
    }
  }

  // --- the resolver ----------------------------------------------------------------------------

  class DecisionEngineResolver {
    const probe: Probe
    var probed: map<(string, nat, string), bool>
    var rejected: Rejections

    /** Every remembered probe is what a fresh one would answer. */
    ghost predicate Valid()
      reads this
    {
      forall k: (string, nat, string) :: k in probed ==> probe(k.0, k.1, k.2) == Ok(probed[k])
    }

    constructor (probe: Probe)
      ensures Valid() && this.probe == probe && rejected == map[]
    {
      this.probe := probe;
      probed, rejected := map[], map[];
    }

    /** The remembered answer or a probe; one that could not run is not remembered. */
    method Check(exe: string, flags: seq<string>, files: Files) returns (refusal: Option<Refusal>)
      requires Valid()
      modifies this`probed
      ensures Valid() && refusal == RefusalOf(probe, rejected, files, exe, flags)
    {
      if exe !in files {
        return Some(NoSuchFile);
      }
      var time := files[exe];
      if (exe, time) in rejected {
        return Some(RefusedAtReadiness(rejected[(exe, time)]));
      }
      for i := 0 to |flags|
        invariant Valid()
        invariant FlagsRefusal(probe, exe, time, flags) == FlagsRefusal(probe, exe, time, flags[i..])
      {
        var key := (exe, time, flags[i]);
        if key !in probed {
          var answer := probe(exe, time, flags[i]);
          if answer.Err? {
            return Some(ProbeFailed(answer.error));
          }
          probed := probed[key := answer.value];
        }
        if !probed[key] {
          return Some(NotListed(flags[i]));
        }
      }
      refusal := None;
    }

    /** Answers as a resolver that probes every candidate afresh. */
    method Resolve(candidates: seq<Candidate>, flags: seq<string>, files: Files) returns (r: Resolved)
      requires Valid()
      modifies this`probed
      ensures Valid() && Answers(Refusals(probe, rejected, files, flags, candidates), candidates, r)
    {
      ghost var rs := Refusals(probe, rejected, files, flags, candidates);
      var tried: seq<Refusal> := [];
      var atReadiness := 0;
      var unchecked: Option<string> := None;
      for i := 0 to |candidates|
        invariant Valid() && |tried| == i && atReadiness == ReadinessCount(tried)
        invariant forall j :: 0 <= j < i ==> rs[j] == Some(tried[j])
        invariant unchecked.None? ==> forall j :: 0 <= j < i ==> !tried[j].ProbeFailed?
        invariant unchecked.Some? ==> exists k: nat :: FirstUnchecked(rs, k) && unchecked.value == rs[k].value.error
      {
        var refusal := Check(candidates[i].path, flags, files);
        assert refusal == rs[i];
        if refusal.None? {
          assert FirstPass(rs, i);
          return Chosen(candidates[i]);
        }
        if refusal.value.RefusedAtReadiness? {
          atReadiness := atReadiness + 1;
        }
        if unchecked.None? && refusal.value.ProbeFailed? {
          assert FirstUnchecked(rs, i);
          unchecked := Some(refusal.value.error);
        }
        assert (tried + [refusal.value])[..i] == tried;
        tried := tried + [refusal.value];
      }
      r := if unchecked.Some? then NotChecked(unchecked.value) else Unsupported(tried, atReadiness);
    }

    /** A file that is gone is not remembered. */
    method Reject(exe: string, why: string, files: Files)
      requires Valid()
      modifies this`rejected
      ensures Valid()
      ensures rejected == if exe in files then old(rejected)[(exe, files[exe]) := why] else old(rejected)
    {
      if exe in files {
        rejected := rejected[(exe, files[exe]) := why];
      }
    }

    method ForgetRejected()
      requires Valid()
      modifies this`rejected
      ensures Valid() && rejected == map[]
    {
      rejected := map[];
    }
  }
}
