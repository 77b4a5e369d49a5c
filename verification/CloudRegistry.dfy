// Registering and removing cloud providers (src/cloud/registry.ts): one mutation at a time writes the
// credentials file and then the settings file, while the router may read both documents at any
// moment, any write may fail and the process may die between any two steps.

module CloudRegistry {
  import opened Options
  import opened Text
  import opened CloudRecords
  import opened ApiKeys

  type Raw = map<string, Json>

  // --- routing ---------------------------------------------------------------------------------

  /** What the router gets for one provider. */
  datatype Remote = Remote(config: Config, apiKey: Option<string>, media: Option<Media>)

  /** The provider's key, unless it is bound to another configuration. */
  function RemoteOf(keys: Keys, p: Provider): Option<Remote> {
    var key := RecordOf(keys, p.name);
    if key.Some? && key.value.boundTo.Some? && key.value.boundTo.value != Sha256(ConfigOf(p)) then None
    else Some(Remote(ConfigOf(p), if key.Some? then Some(key.value.apiKey) else None, p.media))
  }

  /** `routing()`: a map, so the last record of a name wins. */
  function Routing(keys: Keys, ps: seq<Provider>): map<string, Remote> {
    if ps == [] then map[]
    else
      var p := ps[|ps| - 1];
      var before, remote := Routing(keys, ps[..|ps| - 1]), RemoteOf(keys, p);
      if remote.Some? then before[p.name := remote.value] else before
  }

  // --- inputs ----------------------------------------------------------------------------------

  datatype KeyChange = KeepKey | NewKey(key: string)

  datatype MediaChange = KeepMedia | ClearMedia | NewMedia(raw: Json)

  datatype Input = Input(provider: string, apiKey: KeyChange, baseUrl: Option<string>, headers: seq<(string, string)>,
                         models: seq<string>, media: MediaChange)

  datatype Op = Upsert(input: Input) | Remove(provider: string)

  const LOCAL_PROVIDERS := {"llamacpp", "llamacpp-upstream", "atomic-prism", "mlx", "foundation-models", "tensorrt-llm",
                            "vllm", "sglang", "foundry-local", "litert-lm", "geniex"}

  /** `validate` and `checkedMedia`: what is thrown before the mutation is queued. */
  predicate Accepted(input: Input) {
    && Trim(input.provider) != "" && Trim(input.provider) !in LOCAL_PROVIDERS
    && (input.media.NewMedia? ==> MediaAccepted(input.media.raw))
  }

  function HeaderJson(h: (string, string)): Json {
    Obj(map["header" := Str(h.0), "value" := Str(h.1)])
  }

  /** `next`, before the stored media is carried over. */
  function Proposed(input: Input): Provider {
    Provider(Trim(input.provider), if input.baseUrl.Some? then Some(Trim(input.baseUrl.value)) else None,
             seq(|input.headers|, i requires 0 <= i < |input.headers| => HeaderJson(input.headers[i])), input.models,
             if input.media.NewMedia? then MediaOf(Some(input.media.raw)) else None)
  }

  /** `findIndex`; the length of the list when there is none. */
  function IndexOf(ps: seq<Provider>, name: string): (at: nat)
    ensures at <= |ps| && (at < |ps| ==> ps[at].name == name) && forall i :: 0 <= i < at ==> ps[i].name != name
  {
    if ps == [] || ps[0].name == name then 0 else 1 + IndexOf(ps[1..], name)
  }

  /** The record an upsert stores over this list. */
  function NextProvider(input: Input, ps: seq<Provider>): Provider {
    var at := IndexOf(ps, Trim(input.provider));
    if input.media.KeepMedia? && at < |ps| then Proposed(input).(media := ps[at].media) else Proposed(input)
  }

  function Replaced(ps: seq<Provider>, next: Provider): seq<Provider> {
    var at := IndexOf(ps, next.name);
    if at < |ps| then ps[at := next] else ps + [next]
  }

  /** The key an upsert hands to `setBound`. */
  function KeyFor(input: Input, keys: Keys): Option<string> {
    match input.apiKey
    case NewKey(key) => Some(key)
    case KeepKey => var record := RecordOf(keys, Trim(input.provider)); if record.Some? then Some(record.value.apiKey) else None
  }

  function Without(ps: seq<Provider>, name: string): seq<Provider> {
    if ps == [] then []
    else
      var p := ps[|ps| - 1];
      Without(ps[..|ps| - 1], name) + (if p.name == name then [] else [p])
  }

  // --- the state -------------------------------------------------------------------------------

  /** One mutation under way: what it found and what it is to leave. */
  datatype Plan = Plan(op: Op, keys: Keys, list: seq<Raw>, newKeys: Keys, newList: seq<Raw>)

  datatype Stage =
    | Idle
    | WritingKeys(plan: Plan)       // persisting the credentials draft
    | KeysWritten(plan: Plan)       // it is on disk, not yet in memory
    | KeysDone(plan: Plan)
    | WritingSettings(plan: Plan)   // the new settings are in memory, not yet on disk
    | RollingBack(plan: Plan)       // the settings write failed
    | KeysRestored(plan: Plan)      // the restored draft is on disk, not yet in memory

  datatype State = State(keys: Keys, keysFile: Keys, list: seq<Raw>, listFile: seq<Raw>, queue: seq<Op>, stage: Stage)

  function Opened(keysFile: Keys, listFile: seq<Raw>): State {
    State(keysFile, keysFile, listFile, listFile, [], Idle)
  }

  /** Calls queue; a step runs the mutation to its next point, with the outcome of the write it awaits. */
  datatype Action = Call(op: Op) | Step(ok: bool, now: string) | Crash

  function NameOf(op: Op): string {
    match op
    case Upsert(input) => Trim(input.provider)
    case Remove(provider) => provider
  }

  function PlanFor(s: State, op: Op, now: string): Plan {
    var ps := Stored(s.list);
    match op
    case Upsert(input) =>
      var next := NextProvider(input, ps);
      Plan(op, s.keys, s.list, WithBoundKey(s.keys, next.name, KeyFor(input, s.keys), Sha256(ConfigOf(next)), now),
           ListJson(Replaced(ps, next)))
    case Remove(provider) =>
      var kept := Without(ps, provider);
      Plan(op, s.keys, s.list, WithKey(s.keys, provider, None, now), if |kept| == |ps| then s.list else ListJson(kept))
  }

  function Begin(s: State, now: string): State {
    if s.queue == [] then s
    else
      var plan := PlanFor(s, s.queue[0], now);
      s.(queue := s.queue[1..], stage := if plan.newKeys == s.keys then KeysDone(plan) else WritingKeys(plan))
  }

  /** The credentials document `restore` would write. */
  function RestoredKeys(s: State, plan: Plan): Keys {
    WithRecord(s.keys, NameOf(plan.op), RecordOf(plan.keys, NameOf(plan.op)))
  }

  function StepStage(s: State, ok: bool, now: string): State {
    match s.stage
    case Idle => Begin(s, now)
    case WritingKeys(plan) =>
      if ok then s.(keysFile := plan.newKeys, stage := KeysWritten(plan)) else s.(stage := Idle)
    case KeysWritten(plan) => s.(keys := plan.newKeys, stage := KeysDone(plan))
    case KeysDone(plan) =>
      if plan.newList == s.list then s.(stage := Idle) else s.(list := plan.newList, stage := WritingSettings(plan))
    case WritingSettings(plan) =>
      if ok then s.(listFile := plan.newList, stage := Idle) else s.(list := plan.list, stage := RollingBack(plan))
    case RollingBack(plan) =>
      var draft := RestoredKeys(s, plan);
      if draft == s.keys || !ok then s.(stage := Idle) else s.(keysFile := draft, stage := KeysRestored(plan))
    case KeysRestored(plan) => s.(keys := RestoredKeys(s, plan), stage := Idle)
  }

  function Next(s: State, a: Action): State {
    match a
    case Call(op) => if op.Upsert? && !Accepted(op.input) then s else s.(queue := s.queue + [op])
    case Step(ok, now) => StepStage(s, ok, now)
    case Crash => Opened(s.keysFile, s.listFile)
  }

  function Exec(s: State, acts: seq<Action>): State
    decreases |acts|
  {
    if acts == [] then s else Exec(Next(s, acts[0]), acts[1..])
  }

  // --- every reachable state -------------------------------------------------------------------

  /** A mutation the queue accepts. */
  predicate GoodOp(op: Op) {
    op.Upsert? ==> Accepted(op.input)
  }

  /** The plan is the one its operation makes from the documents it found. */
  ghost predicate PlanOk(plan: Plan) {
    && GoodOp(plan.op)
    && exists now: string :: plan == PlanFor(Opened(plan.keys, plan.list), plan.op, now)
  }

  /** Which of its two versions each document is in, at every point of a mutation. */
  predicate StageOk(s: State) {
    match s.stage
    case Idle => s.keys == s.keysFile && s.list == s.listFile
    case WritingKeys(plan) => s.keys == s.keysFile == plan.keys && s.list == s.listFile == plan.list
    case KeysWritten(plan) => s.keys == plan.keys && s.keysFile == plan.newKeys && s.list == s.listFile == plan.list
    case KeysDone(plan) => s.keys == s.keysFile == plan.newKeys && s.list == s.listFile == plan.list
    case WritingSettings(plan) =>
      s.keys == s.keysFile == plan.newKeys && s.list == plan.newList && s.listFile == plan.list
    case RollingBack(plan) => s.keys == s.keysFile == plan.newKeys && s.list == s.listFile == plan.list
    case KeysRestored(plan) => s.keys == plan.newKeys && s.keysFile == plan.keys && s.list == s.listFile == plan.list
  }

  ghost predicate Inv(s: State) {
    && StageOk(s)
    && (!s.stage.Idle? ==> PlanOk(s.stage.plan))
    && (forall i :: 0 <= i < |s.queue| ==> GoodOp(s.queue[i]))
  }

  /** What `restore` writes is exactly the credentials document the mutation found. */
  lemma PlanRestores(plan: Plan)
    requires PlanOk(plan)
    ensures WithRecord(plan.newKeys, NameOf(plan.op), RecordOf(plan.keys, NameOf(plan.op))) == plan.keys
  {
    var now: string :| plan == PlanFor(Opened(plan.keys, plan.list), plan.op, now);
    match plan.op
    case Upsert(input) =>
      var next := NextProvider(input, Stored(plan.list));
      RestoreUndoes(plan.keys, next.name, KeyFor(input, plan.keys), Sha256(ConfigOf(next)), now);
    case Remove(provider) =>
      RestoreUndoes(plan.keys, provider, None, OtherText(""), now);
  }

  lemma BeginOk(s: State, now: string)
    requires Inv(s) && s.stage.Idle?
    ensures Inv(Begin(s, now))
  {
    if s.queue != [] {
      var op := s.queue[0];
      var plan := PlanFor(s, op, now);
      assert plan == PlanFor(Opened(plan.keys, plan.list), op, now);
    }
  }

  lemma NextOk(s: State, a: Action)
    requires Inv(s)
    ensures Inv(Next(s, a))
  {
    if a.Step? {
      match s.stage
      case Idle => BeginOk(s, a.now);
      case RollingBack(plan) => PlanRestores(plan);
      case KeysRestored(plan) => PlanRestores(plan);
      case _ =>
    }
  }

  lemma {:induction false} ExecOk(s: State, acts: seq<Action>)
    requires Inv(s)
    ensures Inv(Exec(s, acts))
    decreases |acts|
  {
    if acts != [] {
      NextOk(s, acts[0]);
      ExecOk(Next(s, acts[0]), acts[1..]);
    }
  }
}
