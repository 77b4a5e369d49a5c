// The ChatGPT session of the core (src/credentials/chatgpt-auth.ts): one operation at a time, each
// awaiting the token file or the token endpoint, against another process that may write new tokens to
// the same file or remove it at any moment. Refresh tokens are numbers; a new one is never an old one.

module ChatGptAuth {
  import opened Options

  datatype Tokens = Tokens(refresh: nat, access: nat)

  /** Where the running operation is suspended. */
  datatype Stage =
    | Idle
    | Hydrating(force: bool)
    | Comparing(current: Tokens)            // reading the file before a refresh
    | Exchanging(spent: Tokens)             // `spent.refresh` is on its way to the endpoint
    | Refused(spent: Tokens)                // reading the file after a refusal
    | Clearing(spent: Tokens)               // removing the file
    | Saving(spent: Tokens, tokens: Tokens)
    | Setting(tokens: Tokens)
    | LoggingOut
    | Reloading

  /** What the token endpoint answered. */
  datatype Answer = Rotated | Kept | Denied | Unreachable

  datatype State = State(
    file: Option<Tokens>,
    tokens: Option<Tokens>,
    hydrated: bool,
    retired: set<nat>,      // refresh tokens this process exchanged for another one
    unused: nat,             // the next refresh token anyone is given
    stage: Stage)

  /** A process starts on whatever the file holds. */
  function Start(file: Option<Tokens>): State {
    State(file, None, false, {}, if file.Some? then file.value.refresh + 1 else 0, Idle)
  }

  /** `expired` is the outcome of `isExpiredAt`, `ok` that of a write. */
  datatype Action =
    | Access(force: bool, expired: bool)
    | Login
    | Logout
    | Reload
    | Step(expired: bool, answer: Answer, access: nat, ok: bool)
    | OtherWrites(access: nat)
    | OtherClears

  /** `accessToken` once the session is in memory. */
  function Decide(s: State, force: bool, expired: bool): State {
    if s.tokens.None? || (!force && !expired) then s.(stage := Idle) else s.(stage := Comparing(s.tokens.value))
  }

  /** Tokens on disk that differ from those in memory were put there by another process, and win. */
  function Compare(s: State, current: Tokens, expired: bool): State {
    if s.file.Some? && s.file.value.refresh != current.refresh
    then s.(tokens := s.file, stage := if expired then Exchanging(s.file.value) else Idle)
    else s.(stage := Exchanging(current))
  }

  function Exchanged(s: State, spent: Tokens, answer: Answer, access: nat): State {
    match answer
    case Rotated =>
      s.(retired := s.retired + {spent.refresh}, unused := s.unused + 1, stage := Saving(spent, Tokens(s.unused, access)))
    case Kept => s.(stage := Saving(spent, Tokens(spent.refresh, access)))
    case Denied => s.(stage := Refused(spent))
    case Unreachable => s.(stage := Idle)
  }

  function Recheck(s: State, spent: Tokens): State {
    if s.file.Some? && s.file.value.refresh != spent.refresh
    then s.(tokens := s.file, stage := Idle)
    else s.(tokens := None, stage := Clearing(spent))
  }

  function StepStage(s: State, a: Action): State
    requires a.Step?
  {
    match s.stage
    case Idle => s
    case Hydrating(force) => Decide(s.(tokens := s.file, hydrated := true), force, a.expired)
    case Comparing(current) => Compare(s, current, a.expired)
    case Exchanging(spent) => Exchanged(s, spent, a.answer, a.access)
    case Refused(spent) => Recheck(s, spent)
    case Clearing(_) => s.(file := if a.ok then None else s.file, stage := Idle)
    case Saving(_, tokens) => s.(file := if a.ok then Some(tokens) else s.file, tokens := Some(tokens), stage := Idle)
    case Setting(tokens) =>
      if a.ok then s.(file := Some(tokens), tokens := Some(tokens), hydrated := true, stage := Idle) else s.(stage := Idle)
    case LoggingOut => s.(file := if a.ok then None else s.file, stage := Idle)
    case Reloading => s.(tokens := s.file, hydrated := true, stage := Idle)
  }

  function Next(s: State, a: Action): State {
    match a
    case Access(force, expired) =>
      if !s.stage.Idle? then s else if s.hydrated then Decide(s, force, expired) else s.(stage := Hydrating(force))
    case Login => if s.stage.Idle? then s.(unused := s.unused + 1, stage := Setting(Tokens(s.unused, 0))) else s
    case Logout => if s.stage.Idle? then s.(tokens := None, hydrated := true, stage := LoggingOut) else s
    case Reload => if s.stage.Idle? then s.(stage := Reloading) else s
    case Step(_, _, _, _) => StepStage(s, a)
    case OtherWrites(access) => s.(file := Some(Tokens(s.unused, access)), unused := s.unused + 1)
    case OtherClears => s.(file := None)
  }

  function Exec(s: State, acts: seq<Action>): State
    decreases |acts|
  {
    if acts == [] then s else Exec(Next(s, acts[0]), acts[1..])
  }

  // --- every reachable state -------------------------------------------------------------------

  predicate Known(s: State, t: Option<Tokens>) {
    t.Some? ==> t.value.refresh < s.unused
  }

  /** Only tokens someone was given are about. */
  predicate TokensOk(s: State) {
    && Known(s, s.file) && Known(s, s.tokens) && (forall r: nat :: r in s.retired ==> r < s.unused)
    && (s.tokens.Some? || s.stage.Saving? ==> s.hydrated)
    && (match s.stage
        case Comparing(current) => s.tokens == Some(current)
        case Exchanging(spent) => s.tokens == Some(spent)
        case Refused(spent) => s.tokens == Some(spent)
        case Clearing(spent) => spent.refresh < s.unused
        case Saving(spent, tokens) => Known(s, Some(tokens)) && (tokens.refresh in s.retired ==> tokens.refresh == spent.refresh)
        case Setting(tokens) => Known(s, Some(tokens)) && tokens.refresh !in s.retired
        case _ => true)
  }

  lemma NextTokensOk(s: State, a: Action)
    requires TokensOk(s)
    ensures TokensOk(Next(s, a))
  {
  }

  lemma {:induction false} ExecTokensOk(s: State, acts: seq<Action>)
    requires TokensOk(s)
    ensures TokensOk(Exec(s, acts))
    decreases |acts|
  {
    if acts != [] {
      NextTokensOk(s, acts[0]);
      ExecTokensOk(Next(s, acts[0]), acts[1..]);
    }
  }

  // --- a token is not presented again once it was exchanged ------------------------------------

  predicate Live(s: State, t: Option<Tokens>) {
    t.Some? ==> t.value.refresh !in s.retired
  }

  /** The file may hold an exchanged token only while its successor is being saved. */
  predicate FileLive(s: State) {
    Live(s, s.file) || (s.stage.Saving? && s.file.value.refresh == s.stage.spent.refresh)
  }

  predicate SessionLive(s: State) {
    if s.stage.Saving? then Live(s, Some(s.stage.tokens)) else Live(s, s.tokens)
  }

  /** A save of refreshed tokens that fails. */
  predicate SaveFails(s: State, a: Action) {
    s.stage.Saving? && a.Step? && !a.ok
  }

  lemma NextLive(s: State, a: Action)
    requires TokensOk(s) && FileLive(s) && SessionLive(s) && !SaveFails(s, a)
    ensures FileLive(Next(s, a)) && SessionLive(Next(s, a))
  {
  }

  predicate SavesSucceed(s: State, acts: seq<Action>)
    decreases |acts|
  {
    acts == [] || (!SaveFails(s, acts[0]) && SavesSucceed(Next(s, acts[0]), acts[1..]))
  }

  lemma {:induction false} ExecLive(s: State, acts: seq<Action>)
    requires TokensOk(s) && FileLive(s) && SessionLive(s) && SavesSucceed(s, acts)
    ensures FileLive(Exec(s, acts)) && SessionLive(Exec(s, acts))
    decreases |acts|
  {
    if acts != [] {
      NextTokensOk(s, acts[0]);
      NextLive(s, acts[0]);
      ExecLive(Next(s, acts[0]), acts[1..]);
    }
  }

  /** In every run whose saves succeed, no refresh token is presented that this process exchanged before. */
  lemma NeverPresentsExchanged(file: Option<Tokens>, acts: seq<Action>)
    requires SavesSucceed(Start(file), acts)
    ensures var s := Exec(Start(file), acts); s.stage.Exchanging? ==> s.stage.spent.refresh !in s.retired
  {
    ExecTokensOk(Start(file), acts);
    ExecLive(Start(file), acts);
  }

  /**
   * The assumption is exact: when a rotation is to be saved over the token it spent, the next forced
   * refresh of an expired session presents an exchanged token if and only if that save fails.
   */
  lemma SaveDecides(file: Option<Tokens>, acts: seq<Action>, save: Action, compare: Action)
    requires SavesSucceed(Start(file), acts)
    requires var s := Exec(Start(file), acts);
      && s.stage.Saving? && s.stage.spent.refresh in s.retired
      && s.file.Some? && s.file.value.refresh == s.stage.spent.refresh
    requires save.Step? && compare.Step? && compare.expired
    ensures var s := Exec(Start(file), acts);
      var s' := Next(Next(Next(s, save), Access(true, true)), compare);
      s'.stage.Exchanging? && (s'.stage.spent.refresh in s'.retired <==> !save.ok)
  {
    ExecTokensOk(Start(file), acts);
    ExecLive(Start(file), acts);
  }

  /** The run in which it happens: a rotation whose save fails, then another refresh. */
  lemma FailedSaveRepeatsToken()
    ensures var s := Start(Some(Tokens(0, 0)));
      var rotate, fail := Step(true, Rotated, 1, true), Step(true, Rotated, 1, false);
      var saved := Next(Next(Next(Next(Next(s, Access(true, true)), rotate), rotate), rotate), fail);
      var again := Next(Next(saved, Access(true, true)), rotate);
      && saved.stage.Idle? && saved.tokens == Some(Tokens(1, 1)) && 0 in saved.retired
      && again.stage == Exchanging(Tokens(0, 0))
  {
  }

  // --- what a refusal clears -------------------------------------------------------------------

  /** The last thing other processes did to the file was to write it. */
  predicate WroteLast(acts: seq<Action>) {
    acts != [] && (var a := acts[|acts| - 1]; a.OtherWrites? || (!a.OtherClears? && WroteLast(acts[..|acts| - 1])))
  }

  /** No step of this process. */
  predicate OnlyOthers(acts: seq<Action>) {
    forall i :: 0 <= i < |acts| ==> !acts[i].Step?
  }

  lemma {:induction false} ExecSnoc(s: State, acts: seq<Action>, a: Action)
    ensures Exec(s, acts + [a]) == Next(Exec(s, acts), a)
    decreases |acts|
  {
    if acts == [] {
      assert acts + [a] == [a];
      assert Exec(Next(s, a), [a][1..]) == Next(s, a);
    } else {
      assert (acts + [a])[1..] == acts[1..] + [a];
      ExecSnoc(Next(s, acts[0]), acts[1..], a);
    }
  }

  /** The file holds a token other than the refused one. */
  predicate Newer(s: State, spent: Tokens) {
    s.file.Some? && s.file.value.refresh != spent.refresh
  }

  /** A removal begins with a read after a refusal that found nothing newer. */
  lemma ClearingBegins(s: State, a: Action)
    requires !s.stage.Clearing? && Next(s, a).stage.Clearing?
    ensures a.Step? && s.stage == Refused(Next(s, a).stage.spent) && !Newer(s, s.stage.spent) && !Newer(Next(s, a), s.stage.spent)
  {
  }

  /** While it is under way only other processes change the file. */
  lemma ClearingGoesOn(s: State, a: Action)
    requires TokensOk(s) && s.stage.Clearing? && Next(s, a).stage.Clearing?
    ensures !a.Step? && Next(s, a).stage == s.stage
    ensures Newer(Next(s, a), s.stage.spent) <==> a.OtherWrites? || (!a.OtherClears? && Newer(s, s.stage.spent))
  {
  }

  /**
   * In every run a removal comes from a read after the refusal that found the refused token or no
   * file, and what it removes is another token if and only if the last thing another process did to
   * the file since that read was to write it.
   */
  lemma {:induction false} RemovalIsOfRefusedUnlessWritten(file: Option<Tokens>, acts: seq<Action>) returns (at: nat)
    requires Exec(Start(file), acts).stage.Clearing?
    ensures at < |acts| && OnlyOthers(acts[at + 1..]) && acts[at].Step?
    ensures var read, s := Exec(Start(file), acts[..at]), Exec(Start(file), acts);
      && read.stage == Refused(s.stage.spent) && !Newer(read, s.stage.spent)
      && (Newer(s, s.stage.spent) <==> WroteLast(acts[at + 1..]))
    decreases |acts|
  {
    assert acts != [];
    var init, a := acts[..|acts| - 1], acts[|acts| - 1];
    assert acts == init + [a];
    ExecSnoc(Start(file), init, a);
    var s := Exec(Start(file), init);
    if s.stage.Clearing? {
      at := RemovalIsOfRefusedUnlessWritten(file, init);
      var since := init[at + 1..];
      assert init[..at] == acts[..at] && acts[at + 1..] == since + [a] && (since + [a])[..|since|] == since;
      ExecTokensOk(Start(file), init);
      ClearingGoesOn(s, a);
    } else {
      ClearingBegins(s, a);
      at := |acts| - 1;
      assert acts[at + 1..] == [];
    }
  }

  /** The other process signs in between the read and the removal, and its tokens go. */
  lemma NewerTokenCanBeRemoved()
    ensures var s := Start(Some(Tokens(0, 0)));
      var step := Step(true, Denied, 0, true);
      var clearing := Next(Next(Next(Next(Next(s, Access(true, true)), step), step), step), step);
      var written := Next(clearing, OtherWrites(7));
      && clearing.stage == Clearing(Tokens(0, 0)) && written.file == Some(Tokens(1, 7))
      && Next(written, step).file == None
  {
  }
}
