# Verified model of the atomic-chat core

This project models the hard core of the local inference core in Dafny and proves what that core is
relied on for: one audio server at a time and none lost, keys that go only where they were meant to,
claims that cover every session, a fallback that is one scan of the installed builds, codecs that read
back what they wrote, stream readers that do not see chunk borders, and comparators that order builds.
`dafny verify dfyconfig.toml` checks everything. Nothing was executed.

## How the source is modelled

Code that waits is a state machine. Each async call is a task (or a stage) whose program counter names
the `await` it is suspended at; one action runs one of them from one await to the next, or is something
the environment does (a process dies, a write fails, the program crashes, another process writes). `Next`
is total, a run is any sequence of actions, `Exec` is the state after it, and a theorem about runs
quantifies over all of them. Objects that are updated without waiting in between, and loops, are classes
and methods with loop invariants, specified by functions about which the laws are proved.

- `AudioJobs`, `AudioProtocol`, `AudioSafety`, `AudioTheorems`, `AudioCancels`, `AudioWitness`: src/audio/session.ts, jobs.ts,
  state.ts, service.ts and idle.ts. `AudioProtocol` is the machine: `StepTear` is `takeDownSession`, `StepSpawn`
  is `loadFromSpec`, `StepUnload` is `unloadSession`, `StepKeepTookDown` is `stopKeepingSpec`, `StepRuns` is
  `execute` with `ensureSession` and `afterTransportError`, `EnterCancel` is `cancelAudioJob`, `StepGrant` the
  entries under the load lock. `AudioSafety` is the inductive invariant, proved one actor at a time: each step
  must re-establish its own part and leave the others what they rely on. `AudioTheorems` states the results,
  `AudioCancels` what the answer of a cancel is worth.
- `CloudRecords`, `ApiKeys`, `CloudRegistry`, `CloudTheorems`, `CloudStore`: src/cloud/registry.ts and
  src/credentials/api-keys.ts, with the two files they write, memory and disk apart. `CloudRegistry` is the machine
  with failures and crashes between the writes; `CloudStore` is the object over its stores, which carries the run of
  the machine it has come through.
- `LoadCancels`, `LocalSessions`, `LocalSessionsTheorems`, `LocalSessionsWitness`: src/core/sessions.ts and
  src/runtime/shared/load-cancel.ts, for one model key, over the maps of src/runtime/llamacpp/runtime.ts: its session,
  the stop and the load in flight, and the reloads it runs outside any transition.
- `ChatGptAuth`: src/credentials/chatgpt-auth.ts against another process on the same token file.
- `EngineCandidates`, `DecisionEngine`, `EngineFallback`: src/decision/engine-candidates.ts, engine.ts and
  engine-fallback.ts.
- `ManagedId`: the id codec of src/config/paths.ts.
- `Splitting`, `EventStreams`, `EventRoundTrip`: the readers of src/client/control-client.ts and
  src/cloud/chatgpt.ts, and what the control server writes for the first.
- `Wav`: src/audio/wav.ts. `LoadDiag`: src/contracts/load-diag.ts.
- `BackendVersions`, `BackendOrder`: src/backend/version.ts and src/backend/turboquant.ts.

## Properties that are false as one would first state them

- The answer of `cancelAudioJob` does not always say how the job ends. Of a job that is over or not generating it
  does. Of a generating job it can be `cancelled: true` for a job recorded as failed if and only if the job's runner
  has already lost its server or its request, whoever cancels (`MisreportIff`; `AudioWitness` has a whole run). A true
  answer always means "over, nothing saved, not completed".
- A cancel does not make every pending acquire reject. One can still answer with a session if and only if it is past
  its second look at the signal, joins a session, and either has got that already or has yet to ask the runtime for it
  while the runtime has one or is about to; one that waits for a load, its own or joined, rejects (`CancelWinsIff`).
- A live session is not always claimed, because a reload runs outside the transitions and three kinds of step give up
  the claim without looking at it: an unload that finds nothing to stop, an acquire that began in the reload's stop
  phase and so takes itself for the creator, and a creating acquire whose claim cannot be updated. A step keeps the
  model claimed if and only if it does not give the claim up while a session, a stop, a load or a reload is there
  (`StepKeepsClaim`), and after one that does the runtime alone can bring up a session nobody claims
  (`EarlyMeansUnclaimedSession`). The claim can even be given up over a session that is there, by an unload only.
- An exchanged refresh token is presented again when the save of its successor fails, and only then (`SaveDecides`).
  A refusal removes a token other than the refused one if and only if another process wrote it since the file was read
  (`RemovalIsOfRefusedUnlessWritten`).
- An upsert makes the provider routed to its new configuration unless the settings file holds a later record of
  the same name and no key is stored (`UpsertRoutes`, both directions).
- The comparator of TurboQuant candidates is no order on every list: exactly the lists are ordered in which no version
  that the collation takes for equal to another stands beside two backends of that other one (`ForkOrdersIffNoClash`).
  The comparator of upstream candidates orders every list.
- The backend comparators are no order on every list: exactly the lists without a `Circle` are ordered. The
  code and the priority lists of src/backend/turboquant.ts know a category `noavx`; no name is ever given it.

## Model

| member | source | states |
|---|---|---|
| AudioJobs.RegisteredKeepsLaw | src/audio/state.ts:112-119 | registering a job while none is active keeps the table law: table and order list agree, at most 50 jobs, the active id names the only job that is not over; the overflow evicts only jobs that are over |
| AudioJobs.PhaseSetKeepsLaw | src/audio/jobs.ts:163-176 | setting a phase keeps the table law and never revives a job that is over |
| AudioJobs.FinishedKeepsLaw | src/audio/jobs.ts:179-205 | finishing a job keeps the table law, frees the active id and does nothing to a job that is over |
| AudioJobs.AudioState.InsertJob | src/audio/state.ts:112-119 | the trimming loop drops exactly the oldest ids beyond 50 from the order list and the table, then stores the record |
| AudioJobs.AudioState.SetJobPhase | src/audio/jobs.ts:163-176 | the method on the mutable record does what `PhaseSet` does and keeps the law |
| AudioJobs.AudioState.FinishAudioJob | src/audio/jobs.ts:179-205 | reports a transition exactly when the job was not over, and the new table is `Finished` |
| AudioJobs.AudioState.TouchIdle | src/audio/state.ts:83-93 | after a touch the idle deadline expires exactly the configured seconds later, and never when that is 0 |
| AudioSafety.StepTaskOk | src/audio/session.ts:127-284 | every step of every task changes nothing or keeps its own part of the invariant and what every other task relies on |
| AudioSafety.NextOk | src/audio/service.ts:331-504 | every call, step, death and observed exit keeps the invariant of the whole protocol |
| AudioSafety.ExecOk | src/audio/session.ts:151-231 | every run keeps it |
| AudioTheorems.OneServerInOneSlot | src/audio/session.ts:151-231 | in every reachable state at most one server is live, it is in exactly one of `starting`, `session`, `stopping`, no other slot is taken, and GPU occupancy is exactly that server |
| AudioTheorems.ShutdownIsFinal | src/audio/service.ts:488-504 | after a resolved shutdown no server is live, none is spawned again and no slot is taken again, for every continuation |
| AudioTheorems.JobTableLaw | src/audio/jobs.ts:163-205 | the table law holds in every reachable state |
| AudioTheorems.TerminalForever | src/audio/jobs.ts:179-205 | a job that is over stays as it is as long as it is remembered |
| AudioTheorems.LiveJobsStay | src/audio/state.ts:112-119 | no step evicts a job that is not over |
| AudioTheorems.CancelledBeforeSaving | src/audio/jobs.ts:343-402 | a cancel requested before the clip is saved means it never is, and the job never completes |
| AudioTheorems.CancelledBeforePosting | src/audio/jobs.ts:343-402 | a cancel requested before the request is posted means it never is |
| AudioTheorems.ResolvedCancelIsOver | src/audio/jobs.ts:447-469 | when a cancel has answered the job is over, and `cancelled: true` means no clip and not completed |
| AudioCancels.AnswerIsExactUnlessGenerating | src/audio/jobs.ts:447-469 | whoever cancels, of a job that is over or not generating the answer is how the record ends, at once or through the runner |
| AudioCancels.MisreportIff | src/audio/jobs.ts:409-469 | in every reachable state, a cancel of a generating job by a client, a load, an unload or an activation has a continuation answering true with the record failed if and only if the job's runner has already lost its server or its request |
| AudioCancels.RequestedWhilePostedEndsCancelled | src/audio/jobs.ts:343-402 | a job cancelled by anyone, shutdown included, while its request is out can only end as cancelled, for every continuation |
| AudioCancels.NextStages | src/audio/jobs.ts:293-435 | every job that is not over has its runner, and one in the generating phase has it between the post and the save |
| AudioCancels.WaitedAnswerIsExact | src/audio/jobs.ts:461-469 | a cancel that waited for the runner answers how the job ended |
| AudioTheorems.GenerationCountsBeginnings | src/audio/session.ts:151-247 | an action raises the generation exactly when it begins a load or an unload |
| AudioTheorems.GenerationCountsRun | src/audio/session.ts:151-247 | over any run the generation is unchanged exactly when nothing began |
| AudioTheorems.OnlyCurrentTeardownReports | src/audio/session.ts:265-279 | a teardown that keeps the spec writes model state and idle deadline exactly when it was confirmed, nobody is shutting down and no load or unload began since |
| AudioWitness.CancelledAnswerForFailedJob | src/audio/jobs.ts:426-460 | a run in which a cancel answers true for a job recorded as failed |
| CloudRecords.ModelsAreNamed | src/cloud/registry.ts:78-98 | the media list read holds exactly the models some entry names |
| CloudRecords.ReadStoredMedia | src/cloud/registry.ts:78-98 | the loop with its set of `kind:id` keys gives each named model once, in order of first mention, and drops adapters of the wrong kind |
| CloudRecords.CheckedMedia | src/cloud/registry.ts:101-130 | accepts exactly the well-formed media and then keeps every entry |
| CloudRecords.MediaRoundTrip | src/cloud/registry.ts:78-98 | a kept media record reads back unchanged |
| CloudRecords.ProviderRoundTrip | src/cloud/registry.ts:150-172 | a stored provider reads back unchanged |
| CloudRecords.StoredRoundTrip | src/cloud/registry.ts:150-172 | a list the registry writes reads back unchanged |
| CloudRecords.StoredIdempotent | src/cloud/registry.ts:150-172 | rewriting what `stored()` read changes nothing it reads |
| ApiKeys.RestoreUndoes | src/credentials/api-keys.ts:121-129 | restoring the old record undoes any `setBound` or `remove` exactly |
| CloudRegistry.PlanRestores | src/cloud/registry.ts:186-236 | what the rollback of any mutation writes is the credentials document it found |
| CloudRegistry.NextOk | src/cloud/registry.ts:186-245 | at every point of a mutation memory and both files hold the versions the plan says, whatever fails and wherever the process dies |
| CloudTheorems.BoundKeysGoWhereApproved | src/cloud/registry.ts:248-268 | at every moment of every run a bound key is routed only to a configuration it was bound to at the start or that an upsert of the run spelled out for it |
| CloudTheorems.ApprovalIsAnUpsert | src/cloud/registry.ts:186-219 | such an approval is an upsert that ran with this key, or kept the key then stored, for this configuration |
| CloudTheorems.MutationSettles | src/cloud/registry.ts:186-236 | a mutation ends with both documents new or both as before, except when the settings write and then the restoring write fail |
| CloudTheorems.RollbackIsExact | src/cloud/registry.ts:211-216 | after a failed settings write everything is as before if and only if the restore worked or was not needed |
| CloudTheorems.CrashLeaves | src/cloud/registry.ts:200-216 | after a crash in a mutation the settings are the old ones and the credentials old or new: settings never run ahead |
| CloudTheorems.UpsertRoutes | src/cloud/registry.ts:186-268 | after an upsert the provider is routed with its key, to the new configuration if and only if a key is stored or its last record is of that configuration |
| CloudTheorems.DuplicateCanWin | src/cloud/registry.ts:195-268 | the case the condition shuts out |
| CloudTheorems.UpsertKeepsOthers | src/cloud/registry.ts:186-219 | in every run a committed upsert leaves every other provider's key, binding and route as they were |
| CloudTheorems.UpsertIsRouted | src/cloud/registry.ts:186-219 | in every run a committed upsert routes the provider, with its key if it has one, to what the input spelled out if and only if a key is stored or the last record of the name says so |
| CloudTheorems.CommittedRemove | src/cloud/registry.ts:222-236 | in every run a committed remove leaves the provider without key and route and the others as they were |
| CloudStore.CloudProviders.Upsert | src/cloud/registry.ts:186-219 | the object over its stores stays on a run of the machine, whose approvals grow by exactly what this input spells out; on success list and credentials are replaced and a provider with a key is routed with it to that configuration; on failure list and keys are as before unless only the restoring write failed |
| CloudStore.CloudProviders.Remove | src/cloud/registry.ts:222-236 | the same for a remove, which approves nothing |
| CloudStore.CloudProviders.Route | src/cloud/registry.ts:248-268 | after any number of calls a bound key is routed only to what one of them approved, or what it was bound to when the object was made |
| CloudStore.PlanUpserts | src/cloud/registry.ts:186-219 | what a committed upsert leaves in both documents and in the routing |
| CloudStore.RolledBack | src/cloud/registry.ts:211-216 | a mutation whose settings write fails runs in the machine to the documents the object ends with |
| LoadCancels.LoadCancelRegistry.Register | src/runtime/shared/load-cancel.ts:85-104 | a new pending load starts uncancelled and no other load's signal changes |
| LoadCancels.LoadCancelRegistry.Release | src/runtime/shared/load-cancel.ts:96-103 | idempotent; no signal changes; the entry goes with its last holder only |
| LoadCancels.LoadCancelRegistry.Cancel | src/runtime/shared/load-cancel.ts:107-112 | every pending load of the key is cancelled and none of another key; false means nothing uncancelled was pending |
| LoadCancels.ReleaseKeeps | src/runtime/shared/load-cancel.ts:96-103 | holder counts stay exact and every pending load stays reachable or cancelled |
| LocalSessionsTheorems.NextOk | src/core/sessions.ts:55-153 | every call, step, death, stop, load, reload and shutdown step keeps the invariant |
| LocalSessionsTheorems.TransitionsNeverOverlap | src/core/sessions.ts:209-221 | in every run at most one transition of the model is running |
| LocalSessionsTheorems.ReleasedOverSession | src/core/sessions.ts:122-146 | in every run the claim is given up over a session that is there if and only if by an unload that succeeds while one is |
| LocalSessionsTheorems.StepKeepsClaim | src/core/sessions.ts:99-146 | a step keeps the model claimed if and only if it does not give the claim up while a session, a stop, a load or a reload is there |
| LocalSessionsTheorems.LiveSessionIsClaimed | src/core/sessions.ts:55-146 | in every run without such a step a live session means this core holds the claim |
| LocalSessionsTheorems.UnclaimedOnlyAfterEarly | src/core/sessions.ts:55-146 | in any run that leaves the model unclaimed there is such a step |
| LocalSessionsTheorems.EarlyMeansUnclaimedSession | src/core/sessions.ts:122-146 | after any such step of any run the runtime alone can bring up a session without the claim |
| LocalSessionsWitness.UnloadDuringReload | src/runtime/llamacpp/runtime.ts:910-952 | a run in which an unload during a reload leaves the reloaded session unclaimed, no acquire involved |
| LocalSessionsWitness.UnloadOverSession | src/core/sessions.ts:132-146 | a run in which an unload gives up the claim over a live session |
| LocalSessionsWitness.AcquireDuringStop | src/core/sessions.ts:106-128 | a run in which an acquire begun in a reload's stop phase fails and leaves the reloaded session unclaimed |
| LocalSessionsWitness.UpdateFailsDuringReload | src/core/sessions.ts:107-128 | a run in which the claim cannot be updated during a reload and is given up |
| LocalSessionsTheorems.ClosedIsClean | src/core/sessions.ts:149-153 | after a finished shutdown there is no session, claim or running transition |
| LocalSessionsTheorems.CancelWinsIff | src/core/sessions.ts:74-121 | after a cancel a pending acquire has a continuation that answers with a session if and only if it is past its last look at the signal, joins a session, and has got it or has yet to ask for it while the runtime has one or can still bring one up by itself |
| LocalSessionsTheorems.OthersWait | src/core/sessions.ts:209-221 | while one transition is inside no other one touches the runtime |
| ChatGptAuth.NeverPresentsExchanged | src/credentials/chatgpt-auth.ts:126-168 | in every run whose saves succeed no refresh token is presented that this process exchanged before |
| ChatGptAuth.SaveDecides | src/credentials/chatgpt-auth.ts:164-166 | the next forced refresh presents an exchanged token if and only if the save fails |
| ChatGptAuth.FailedSaveRepeatsToken | src/credentials/chatgpt-auth.ts:136-166 | a run that does |
| ChatGptAuth.RemovalIsOfRefusedUnlessWritten | src/credentials/chatgpt-auth.ts:148-160 | in every run a removal comes from a read after the refusal that found the refused token or no file, and removes another token if and only if the last thing another process did to the file since was to write it |
| ChatGptAuth.NewerTokenCanBeRemoved | src/credentials/chatgpt-auth.ts:150-158 | a run in which it is a newer one |
| EngineCandidates.ForkOrdersIffNoClash | src/decision/engine-candidates.ts:140-152 | the TurboQuant comparator orders a list if and only if it has no clash |
| EngineCandidates.ClashExists | src/decision/engine-candidates.ts:140-152 | three builds and a collation that clash |
| EngineCandidates.DistinctVersionsAreOrdered | src/decision/engine-candidates.ts:140-152 | so every list whose versions the collation tells apart |
| EngineCandidates.ForkIsSorted | src/decision/engine-candidates.ts:140-152 | a list without a clash is sorted, and its first build is beaten by none on the version gate, then the build number |
| EngineCandidates.UpstreamOrders | src/decision/engine-candidates.ts:122-137 | the upstream comparator orders every list |
| EngineCandidates.UpstreamIsLexicographic | src/decision/engine-candidates.ts:122-137 | falling through its keys is the lexicographic order of picked build, release, picked kind and backend preference |
| EngineCandidates.PickedIsFirst | src/decision/engine-candidates.ts:118-137 | of any sorted list of the eligible builds the first is the picked one if eligible, else one of the newest, of the picked kind if one of those is |
| EngineCandidates.OrderUpstream | src/decision/engine-candidates.ts:98-138 | every pack is eligible or too old, never both, and the eligible ones are sorted with that build first |
| EngineCandidates.PickedIsChosen | src/decision/engine.ts:186-199 | the gate chooses the picked build whenever it is eligible and passes |
| DecisionEngine.PassesIff | src/decision/engine.ts:229-254 | a build passes if and only if it exists, was not refused at readiness and is known to list every flag |
| DecisionEngine.DecisionEngineResolver.Check | src/decision/engine.ts:229-254 | the check with remembered probes answers as one that probes afresh |
| DecisionEngine.DecisionEngineResolver.Resolve | src/decision/engine.ts:131-170 | the first passing candidate; "not checked" with the first probe error if none passes and some could not be probed; "unsupported" only if every one was definitively refused |
| DecisionEngine.AnswerIsUnique | src/decision/engine.ts:131-170 | that description allows one answer only |
| DecisionEngine.DecisionEngineResolver.Reject | src/decision/engine.ts:214-219 | remembers the refusal for this file and time, nothing if the file is gone |
| DecisionEngine.DecisionEngineResolver.ForgetRejected | src/decision/engine.ts:222-226 | every build is tried again |
| EngineFallback.SpawnOnFirstGoodEngine | src/decision/engine-fallback.ts:42-84 | the resolve, spawn and reject loop is one left-to-right scan of the eligible builds: a prefix of at most 8 is spawned, the first that starts wins, and a list exhausted by a crash reports the last crash |
| EngineFallback.EligibleListed | src/decision/engine-fallback.ts:42-84 | eligible builds pass the gate and no path is listed, so none is spawned, twice |
| EngineFallback.EligibleComplete | src/decision/engine-fallback.ts:42-84 | every path that passes is among them |
| EngineFallback.ScanIsUnique | src/decision/engine-fallback.ts:42-84 | the scan is determined: builds spawned and outcome, with what is listed against each candidate |
| ManagedId.RoundTrip | src/config/paths.ts:422-456 | decoding the directory name of any id gives the id |
| ManagedId.StringRoundTrip | src/config/paths.ts:422-456 | the same on strings, for any UTF-8 codec that reads back what it wrote |
| ManagedId.EncodeInjective | src/config/paths.ts:422-433 | different ids get different names |
| ManagedId.EncodeIsSegment | src/config/paths.ts:422-433 | the name of a non-empty id is one segment: safe characters, no trailing dot, not a dot name, not a Windows device |
| ManagedId.CacheDirInjective | src/config/paths.ts:200-210 | different (descriptor, model) pairs get different cache directories |
| ManagedId.EncodeManagedId | src/config/paths.ts:422-433 | the loop and the three escapes give that name; only the empty id is refused |
| ManagedId.DecodeManagedId | src/config/paths.ts:436-456 | the loop decodes exactly the texts in which every `%` has two hexadecimal digits |
| Splitting.SplitAppend | src/client/control-client.ts:923-937 | splitting may stop anywhere and go on with what is left |
| Splitting.SplitUnique | src/client/control-client.ts:923-937 | the split is the only one in which each frame ends at its first separator and the rest has none |
| EventStreams.ParseFrame | src/client/control-client.ts:941-959 | the last id and event, the data lines together, nothing without an event |
| EventStreams.ReadEvents | src/client/control-client.ts:906-938 | for any chunking, the messages of the whole text split on blank lines, the tail dropped |
| EventStreams.ReadUpstream | src/cloud/chatgpt.ts:255-285 | for any chunking, the payloads of all lines of the whole text, the tail flushed |
| EventRoundTrip.StreamRoundTrip | src/server/control/routes/lifecycle.ts:90-92 | the client is handed exactly the events the server wrote, in order, heartbeats skipped, for any chunking |
| Wav.ParseWav | src/audio/wav.ts:30-65 | finds the header if and only if there is one, every read in bounds, data within the file |
| Wav.HeaderIsUnique | src/audio/wav.ts:30-65 | a file has at most one header |
| Wav.StartIsNeverWrong | src/audio/wav.ts:24-30 | what the first bytes and the file size say, the whole file says |
| Wav.StartSuffices | src/audio/wav.ts:24-30 | they say it if and only if the header of the data chunk is among them |
| LoadDiag.CleanKeeps | src/contracts/load-diag.ts:32-36 | exactly the fields with a value are written, each key once |
| LoadDiag.FormatLoadDiag | src/contracts/load-diag.ts:32-36 | the line is the prefix and those fields |
| LoadDiag.DiagIsLastLine | src/contracts/load-diag.ts:39-43 | the diagnostic is the last line and the only one |
| LoadDiag.StripUndoes | src/contracts/load-diag.ts:45-50 | stripping takes off exactly what was appended |
| LoadDiag.LastWriteWins | src/contracts/load-diag.ts:39-43 | appending twice is appending the second to the original |
| LoadDiag.ParseLoadDiag | src/contracts/load-diag.ts:52-66 | the backward loop reads the last line that is a diagnostic once trimmed |
| LoadDiag.ParseRecovers | src/contracts/load-diag.ts:52-66 | reading back gives the cleaned diagnostic, whatever the details were |
| BackendVersions.TagRankIsBuildNumber | src/backend/version.ts:54-66 | a release tag's rank is its build number |
| BackendVersions.UnifiedTagHasNoBuildNumber | src/backend/turboquant.ts:105-117 | a unified tag has build number 0 |
| BackendVersions.CompareVersions | src/backend/version.ts:32-43 | the first component that differs decides, missing or unreadable ones being 0 |
| BackendVersions.ComparisonIsOrder | src/backend/version.ts:32-43 | that comparison is antisymmetric and transitive |
| BackendOrder.EqualTagsTie | src/backend/turboquant.ts:128-142 | tags of equal rank tie in the Windows step, in both comparators |
| BackendOrder.CompareFlips | src/backend/version.ts:116-141 | both comparators are antisymmetric and 0 exactly for equal version, backend and order |
| BackendOrder.OrdersIffNoCircle | src/backend/version.ts:116-141 | both comparators are transitive on a list if and only if no untagged Windows pair is inverted around an untagged other build |
| BackendOrder.OneKindIsOrdered | src/backend/turboquant.ts:128-148 | so on every list whose untagged builds are all Windows or all not |
| BackendOrder.CircleExists | src/backend/version.ts:127-135 | three builds the comparator sends in a circle |
| BackendOrder.SortIsUnique | src/backend/version.ts:116-141 | a list has at most one sorted permutation |
| BackendOrder.SortSorts | src/backend/version.ts:116-141 | an ordered list has one |
| BackendOrder.NoavxIsNeverReached | src/backend/turboquant.ts:348-362 | no backend name gets the category `noavx` |
| BackendOrder.Prioritize | src/backend/turboquant.ts:394-407 | the newest build of the first category present, else the first build; an error exactly for the empty list |

## Left out

- AudioTheorems.OneServerInOneSlot: async code is modelled on values, so aliasing of job records and slots is not captured; awaits that only emit a status may be cut more finely than in the source, which adds interleavings.
- The order in which waiters get the load lock and the GPU claim's own queue: any waiter may be next, and a claim may be refused or granted at any time.
- The retry of a spawn on a taken port, voice references, galleries, seeds and request checks of src/audio.
- CloudStore.CloudProviders.Upsert: calls of the object do not overlap and the process does not die in one; overlap and crashes are in the machine.
- CloudRegistry.NextOk: JSON objects are maps, so the order of their fields is not modelled; provider names that are members of the JavaScript object prototype are treated like any other; the hash is a constructor, that is injective.
- Type checks of `validate` in src/cloud/registry.ts on values a typed caller cannot pass, `list` and `get`.
- LocalSessionsTheorems.LiveSessionIsClaimed: one model key and the llama.cpp runtime's maps; how a load or a stop is carried out, the queue of loads across models and the claim file protocol between processes are not part of the model, and a runtime that was shut down has nothing left in flight.
- LocalSessionsTheorems.CancelWinsIff: a load that ends and the promises it resolves are one step, so a cancel falls before or after all of them; the cancel's boolean answer is on LoadCancelRegistry.Cancel only.
- A status emit that rejects after `loaded`, after `unloaded` or at the end of `stopKeepingSpec`, a change of `idleUnloadSecs` and the public `touchIdle` are no steps of the audio machine.
- ChatGptAuth.NeverPresentsExchanged: the sign-in flow, token contents and expiry arithmetic; an exchange whose answer is lost counts as not made.
- DecisionEngine.DecisionEngineResolver.Resolve: the candidates are given in order; builds older than the floor only add lines to the error text; messages are not modelled.
- EngineCandidates.OrderUpstream: `localeCompare` is any collation; lower case is that of ASCII; build numbers are unbounded where the source's are floating point; that equal builds keep their order is not stated.
- EngineFallback.SpawnOnFirstGoodEngine: the files do not change during a start, and spawning a path has one outcome per start; log lines and the joining of details are not modelled.
- ManagedId.EncodeManagedId: works on the UTF-8 bytes of the id; lone surrogates are replaced before that.
- Wav.ParseWav: milliseconds are rounded half up from the exact quotient, without the rounding of floating point.
- LoadDiag.ParseLoadDiag: JSON is a codec that reads back what it wrote; arrays, which the source also lets through, count as objects.
- EventStreams.ReadEvents: text decoding of the bytes and the JSON parser are parameters; only line feeds end lines, as in the source.
- BackendOrder.Prioritize: the sort of the runtime is an insertion sort; on ordered lists every sort gives the same list, on others the source's choice depends on the engine.
- BackendOrder.CompareFlips: strings compare by code points, the source by UTF-16 units.
- `GpuResidency`, `AsyncMutex`, the settings store beyond one list, the llama.cpp and managed runtimes, HTTP, files, timers and the command line.
