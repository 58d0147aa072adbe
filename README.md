# Autonomous SDLC orchestration core, modelled in Dafny

This project models the control-flow core of a multi-agent "autonomous SDLC"
orchestration system and proves properties of that model:

- the **agent mesh** (`a2a_framework.py`): agents, a registry that keeps every
  pair of registered agents mutual peers, and best-effort message delivery;
- the two **collaboration dispatchers** (`services/ai_providers_simple.py`,
  `refactored_orchestrator.py`): canned `collaborate` answers that echo the
  request, the session table and bridge flag of `SimpleOrchestrator`, and
  `enter_autonomous_sdlc_mode`;
- the **eight-stage pipeline** (`extended_autonomous_pipeline.py`): each stage
  awaits one collaboration call and then appends one `LoopRecord`. Nothing is
  caught, so the first failing call ends the run;
- the two **iteration supervisors**:
  - `IntegratedAutonomousLoops.run_all_loops` collects one entry per round or propagates the failure;
  - `autonomous_sdlc_loop` swallows every `Exception` a round raises;
- the **testing loop runner** (`testing_loop_runner.py`): the source-file filter
  over a directory walk, stub generation from dispatcher answers, the
  `dirname/test_<basename>` target path, the file writes and the `run_tests`
  bookkeeping.

Files:

- `values.dfy`: Python values (`Value`), exceptions as a failure-compatible `Outcome` (so `:-` is propagation), and the string operations the core uses.
- `oracles.dfy`: collaborators the core awaits but does not own, as `Oracle` objects. Each one logs its calls and answers from a script indexed by call position. Also holds the clock, and the generic "chain of awaited calls with no handler" (`Reached`, `Halted` and the `Chain*` lemmas).
- `dispatch.dfy`, `mesh.dfy`, `pipeline.dfy`, `loops.dfy`, `testing.dfy`: one module per core component, in the source's own form. Stateful objects are classes with `modifies` frames. Pure result-building code is functions. Every loop of the source is a `while` loop with invariants.

The pipeline, `run_all_loops` and `generate_test_stubs` are each proved
against a specification stated with `Replies`/`FirstFailure`. Either the run
reached the end, with every
record appended and every call made, or it halted at the first failing call,
with exactly the earlier records and that call's error. Scenario methods
replay the repository's unit tests against concrete scripts, such as "the
second call raises".

## Model

| member | source | states |
|---|---|---|
| Values.Truthy | testing_loop_runner.py:44 | defines Python truthiness as `if test_code:` decides it: None, False, integer and float zero, and empty strings, lists and dicts are falsy |
| Values.Get | testing_loop_runner.py:43 | defines `dict.get(key, default)`: the value under the key, the default when it is missing, and a failure on a non-dict |
| Values.StrList | services/ai_providers_simple.py:30 | a Python list of strings holds one `str` item per string, in order |
| Values.StringsOf | services/ai_providers_simple.py:30 | a list reads back as strings iff every item is a `str`, and then item i is string i |
| Values.StringsOfStrList | services/ai_providers_simple.py:30 | reading a list of strings back gives the same strings (round trip) |
| Values.Split | testing_loop_runner.py:45 | splitting (the inverse of the newline join) always yields at least one piece |
| Values.SplitAtFirst | testing_loop_runner.py:45 | splitting cuts exactly at the first separator |
| Values.SplitNone | testing_loop_runner.py:45 | a string without the separator does not split |
| Values.SplitJoin | testing_loop_runner.py:45 | joining lines that hold no separator and splitting again gives the lines back |
| Values.Join | refactored_orchestrator.py:29 | defines `sep.join(xs)`: the strings with the separator between consecutive ones |
| Values.JoinContains | refactored_orchestrator.py:29 | every joined element occurs in the joined string |
| Values.NatToString | testing_loop_runner.py:37 | defines `str(n)` of a natural: a non-empty string of decimal digits; NatToStringValue states its value |
| Values.IntToString | testing_loop_runner.py:37 | defines `str(n)` of a Python `int`: a minus sign before the digits of a negative number |
| Values.NatToStringValue | testing_loop_runner.py:37 | the decimal string of n denotes n, and has no leading zero unless it is "0" |
| Dispatch.DecodeEncode | services/ai_providers_simple.py:26-32 | decoding an encoded result dictionary gives the result back |
| Dispatch.Encode | services/ai_providers_simple.py:26-32 | defines the result dict the dispatchers return: success, paradigm, task, agents, status |
| Dispatch.Collaboration | services/ai_providers_simple.py:26-32 | the answer has exactly the keys success, paradigm, task, agents, status; success is true, status "ok", and the rest echo the request for any paradigm |
| Dispatch.DefaultProviders | services/ai_providers_simple.py:12-17 | the provider keys are exactly gemini, claude, openai, blackbox, each under its own name |
| Dispatch.RecordSession | services/ai_providers_simple.py:25 | the session maps to its task, other sessions are unchanged, and the count grows only for a new id |
| Dispatch.SimpleOrchestrator.constructor | services/ai_providers_simple.py:11-19 | the default providers, no sessions, bridges not initialised |
| Dispatch.SimpleOrchestrator.Collaborate | services/ai_providers_simple.py:21-32 | returns the canned answer and records the session; providers and bridge flag are outside its frame |
| Dispatch.SimpleOrchestrator.InitializeBridges | services/ai_providers_simple.py:34-36 | the flag is set whatever it was (idempotent) and success is returned |
| Dispatch.BridgesReady | services/ai_providers_simple.py:36 | defines the `{'success': True}` answer of `initialize_bridges` |
| Dispatch.SimpleOrchestrator.GenerateCodeWithBridges | services/ai_providers_simple.py:38-40 | success with code equal to "// code for " followed by the prompt, and no state change |
| Dispatch.EnhancedProviders | refactored_orchestrator.py:6-12 | the provider keys are exactly gemini, claude, openai, blackbox, each an empty dict |
| Dispatch.EnhancedCollaborate | refactored_orchestrator.py:14-23 | the stateless answer decodes to success, status "ok" and the echoed paradigm, task, agents |
| Dispatch.EnhancedReply | refactored_orchestrator.py:14-23 | defines `EnhancedOrchestrator.collaborate` as an awaited collaborator: every call, at any position, returns its stateless answer and none raises |
| Dispatch.EnhancedIgnoresSessionAndContext | refactored_orchestrator.py:14-23 | two requests that differ only in session id and context get the same answer |
| Dispatch.EnterAutonomousSdlcMode | refactored_orchestrator.py:27-29 | defines the summary `enter_autonomous_sdlc_mode` returns: "completed ", the task, " with ", and the agents joined by ", "; what it promises is stated by SummaryMentionsAgents |
| Dispatch.SummaryMentionsAgents | refactored_orchestrator.py:29 | the summary names its task right after "completed " and contains every agent |
| Oracles.Oracle.constructor | integrated_autonomous_loops.py:8-9 | a collaborator with an empty call log and its answer script |
| Oracles.Oracle.Call | integrated_autonomous_loops.py:15-17 | an awaited call is appended to the log and answered by the script at its position |
| Oracles.Clock.constructor | testing_loop_runner.py:37 | a clock with no readings and no sleeps |
| Oracles.Clock.Now | testing_loop_runner.py:37 | `int(time.time())` returns the reading at the next position and counts one reading |
| Oracles.Clock.Sleep | integrated_autonomous_loops.py:25-26 | `asyncio.sleep(d)` is logged as one sleep of d seconds |
| Oracles.Replies | extended_autonomous_pipeline.py:115-124 | defines the answers a script gives to a run of consecutive calls: answer j is the script's answer at position n0 + j |
| Oracles.FirstFailure | extended_autonomous_pipeline.py:115-124 | the number of calls that return before the first one raises: all earlier answers are Ok, that one is Fail |
| Oracles.FirstFailureIs | extended_autonomous_pipeline.py:115-124 | those conditions single out one position |
| Oracles.Repeat | run_autonomous_sdlc_loop.py:7-9 | defines n copies of one request, the calls of `for _ in range(n)` with fixed arguments |
| Oracles.Rounds | integrated_autonomous_loops.py:14 | defines how many rounds `for _ in range(iterations)` runs: iterations when positive, none otherwise |
| Oracles.Pauses | run_autonomous_sdlc_loop.py:13-14 | defines the sleeps of n rounds: none for a zero delay, otherwise one sleep of the delay per round; PausesStep states how a round adds to them |
| Oracles.PausesStep | run_autonomous_sdlc_loop.py:13-14 | one more round adds its sleep at the end iff the delay is non-zero |
| Oracles.ChainStart | extended_autonomous_pipeline.py:115 | a run starts with nothing appended and no calls made |
| Oracles.ChainStep | extended_autonomous_pipeline.py:24-31 | a call that returns, followed by its append, advances the run by one step |
| Oracles.ChainStop | extended_autonomous_pipeline.py:24-31 | a call that raises halts the run there, with no record for it and its error |
| Oracles.ChainAdvance | testing_loop_runner.py:36-47 | a made call either advances the run or halts it at that position |
| Oracles.ChainDone | extended_autonomous_pipeline.py:115-124 | a run that reached the end appended every record and made every call |
| Oracles.HaltedAnswer | extended_autonomous_pipeline.py:115-124 | a halted run's error is the answer of its first failing call |
| Mesh.AppendMissing | a2a_framework.py:59-64 | defines the new agent's peer list after the loop has visited some ids: each visited id other than its own that is not yet listed is appended, in visiting order |
| Mesh.Linked | a2a_framework.py:60-62 | defines an already registered agent's peer list after the new id registers: the id is appended when missing |
| Mesh.RegisteredPeers | a2a_framework.py:55-64 | defines the peer lists after `register_agent`: the new agent gains every other id in key order, every other agent gains the new id |
| Mesh.AppendMissingPeers | a2a_framework.py:59-64 | the peer loop only appends; it keeps the old list as a prefix, adds exactly the visited ids other than the agent's own, and adds none twice |
| Mesh.Agent.constructor | a2a_framework.py:27-33 | id, name, capabilities and orchestrator as given, no peers |
| Mesh.Agent.ReceiveMessage | a2a_framework.py:47-49 | the handler call is recorded once |
| Mesh.Agent.SendMessage | a2a_framework.py:41-45 | an agent without an orchestrator fails with the RuntimeError and delivers nothing; otherwise the message built from its own id and the arguments is delivered |
| Mesh.RegisteredPeersByPosition | a2a_framework.py:59-64 | peer lists fixed position by position along the key order are the registration result |
| Mesh.RegisterKeepsFullMesh | a2a_framework.py:59-64 | registration keeps every pair of registered ids mutual peers |
| Mesh.RegisterKeepsSimple | a2a_framework.py:60-63 | registration keeps every peer list free of its own id and of repeats |
| Mesh.RegisterKeeps | a2a_framework.py:59-64 | both shape invariants, each under its own hypothesis |
| Mesh.ReRegistration | a2a_framework.py:57-63 | re-registering an id of a full mesh adds no id and leaves every other peer list unchanged |
| Mesh.Replacement | a2a_framework.py:55-64 | re-registering an id with no peers of its own in a two-agent mesh gives back the same peer lists |
| Mesh.FirstRegistration | a2a_framework.py:55-64 | a first agent in an empty registry gets no peers |
| Mesh.SecondRegistration | a2a_framework.py:55-64 | a second agent next to a lone first one: each lists only the other |
| Mesh.Orchestrator.constructor | a2a_framework.py:52-53 | an empty registry, trivially a full and simple mesh |
| Mesh.Orchestrator.RegisterAgent | a2a_framework.py:55-64 | the agent is stored under its id (replacing any earlier one), points back at this registry, and the peer lists become the registration result; full mesh and simple lists are preserved; only agents of the updated registry have their peers changed, so a displaced agent with the same id keeps its peer list |
| Mesh.Orchestrator.Enroll | a2a_framework.py:56-64 | the state changes of registration, in source order, within the same frame as RegisterAgent |
| Mesh.Orchestrator.Store | a2a_framework.py:57 | the dict update, with the key order extended only for a new id |
| Mesh.Orchestrator.LinkPeers | a2a_framework.py:59-64 | after the loop the peer lists are the registration result |
| Mesh.Orchestrator.LinkEach | a2a_framework.py:59-64 | the loop over the registry in key order: the agent gains every missing id, every other agent gains the agent's id |
| Mesh.Orchestrator.LinkPair | a2a_framework.py:60-64 | one round: both agents append each other's id if missing |
| Mesh.Orchestrator.RegisterSecond | tests/test_a2a_framework.py:39-50 | registering a second agent makes the two each other's only peer |
| Mesh.Orchestrator.DeliverMessage | a2a_framework.py:66-69 | a registered receiver's handler gets the message exactly once; an unknown receiver means no handler call and no error |
| Mesh.RegisterOne | a2a_framework.py:52-64 | a fresh registry with one fresh agent: stored, no peers, pointing back |
| Mesh.RegisterTwo | tests/test_a2a_framework.py:38-40 | two distinct fresh agents registered in turn list each other |
| Mesh.RegisterCoderAndTester | tests/test_a2a_framework.py:24-40 | the coder and tester fixtures registered in order |
| Mesh.RegistrationScenario | tests/test_a2a_framework.py:42-50 | exactly the two ids are registered, each the other's only peer |
| Mesh.MessagingScenario | tests/test_a2a_framework.py:52-75 | the coder's request reaches the tester exactly once; a message to an unregistered id reaches no one |
| Mesh.UnregisteredScenario | a2a_framework.py:42-43 | an unregistered agent cannot send |
| Mesh.ReplacementScenario | a2a_framework.py:55-64 | a second coder registered under the coder's id displaces it: two ids stay registered, the newcomer gains the tester as peer, the tester's list is unchanged, and the displaced coder keeps its own peer list |
| Pipeline.Name | extended_autonomous_pipeline.py:23-113 | defines each stage's name, used as its session id and its record's name |
| Pipeline.Paradigm | extended_autonomous_pipeline.py:23-113 | defines each stage's fixed paradigm, from analysis to feedback |
| Pipeline.Task | extended_autonomous_pipeline.py:23-113 | defines each stage's task: the raw input for requirement extraction, a fixed phrase for the others |
| Pipeline.Context | extended_autonomous_pipeline.py:23-113 | defines each stage's context: the previous result it is handed, or none |
| Pipeline.Output | extended_autonomous_pipeline.py:23-113 | defines the fixed dict each stage records and returns; the collaboration answer is not used |
| Pipeline.StageRequest | extended_autonomous_pipeline.py:23-113 | defines the collaboration call a stage awaits: its name as session id, its paradigm, task and context, and the pipeline's agents |
| Pipeline.Record | extended_autonomous_pipeline.py:23-113 | defines the `LoopRecord` a stage appends: its name and its output |
| Pipeline.Stages | extended_autonomous_pipeline.py:115-123 | defines the eight stages `run_pipeline` awaits in order, with the backlog fed to architecture synthesis, the design to code generation, and the code to testing and review |
| Pipeline.Requests | extended_autonomous_pipeline.py:115-124 | a complete run makes eight calls |
| Pipeline.Records | extended_autonomous_pipeline.py:115-124 | a complete run appends eight records |
| Pipeline.RunShape | extended_autonomous_pipeline.py:24-124 | records are named requirement_extraction … metrics_feedback in order; call i uses stage i's name as session id, its fixed paradigm (analysis … feedback) and the pipeline's agents |
| Pipeline.ContextFlow | extended_autonomous_pipeline.py:34-120 | the backlog is the context of architecture synthesis, the design of code generation, the code of testing and review; the other calls carry none |
| Pipeline.BacklogHoldsRawInput | extended_autonomous_pipeline.py:24-32 | requirement extraction sends the raw input as task and records stories = [raw] and criteria = [] |
| Pipeline.StageAt | extended_autonomous_pipeline.py:115-124 | position j of a run is stage j's call and record |
| Pipeline.FailingStage | extended_autonomous_pipeline.py:115-124 | the failing stage is a position among the eight stages, or 8 for a complete run |
| Pipeline.ExtendedPipeline.constructor | extended_autonomous_pipeline.py:18-21 | the dispatcher and agents as given, an empty history |
| Pipeline.ExtendedPipeline.RunStage | extended_autonomous_pipeline.py:23-113 | a stage makes its call first; if it returns, exactly its record is appended and its output returned, otherwise the history is unchanged and the error propagates |
| Pipeline.ExtendedPipeline.Advance | extended_autonomous_pipeline.py:116-123 | a stage awaited inside the run either advances the run or halts it |
| Pipeline.ExtendedPipeline.ThroughCodeGeneration | extended_autonomous_pipeline.py:116-118 | the first three stages thread their outputs and return the code |
| Pipeline.ExtendedPipeline.RunPipeline | extended_autonomous_pipeline.py:115-124 | either every call returns, all eight records are appended and the history is returned, or the run halts at the first failing call with exactly the earlier records and that error |
| Pipeline.CompleteRun | extended_autonomous_pipeline.py:115-124 | a complete run appended the eight records in stage order after the old history |
| Pipeline.RunToCompletion | tests/test_extended_autonomous_pipeline.py:15-31 | over the enhanced dispatcher every run completes |
| Pipeline.FullRunScenario | tests/test_extended_autonomous_pipeline.py:15-31 | a fresh pipeline returns eight records named in stage order after eight calls |
| Pipeline.FailingRunScenario | extended_autonomous_pipeline.py:115-124 | when the third call raises, the run raises after recording only the first two stages |
| Pipeline.RunTwiceScenario | extended_autonomous_pipeline.py:115-124 | a second run on the same pipeline leaves the first eight records of `p.history` as they were and appends eight more |
| Loops.Entries | integrated_autonomous_loops.py:14-24 | one entry per round |
| Loops.Entry | integrated_autonomous_loops.py:18-24 | defines a round's entry: its answer, "feedback for " + task and "optimization for " + task |
| Loops.SdRequest | integrated_autonomous_loops.py:15-17 | defines the call every round awaits: session id "sd", paradigm "self-directed", the task and the agents, with no context |
| Loops.EnterModeReply | refactored_orchestrator.py:27-29 | defines `enter_autonomous_sdlc_mode` as an awaited collaborator: every call returns its summary and none raises |
| Loops.EntryDict | integrated_autonomous_loops.py:20-24 | defines the entry as the dict appended, under sd_result, feedback_result and optimization_result |
| Loops.EntriesHoldAnswers | integrated_autonomous_loops.py:15-24 | round i's entry holds that round's answer as sd_result plus "feedback for " + task and "optimization for " + task, under exactly the three keys |
| Loops.IntegratedLoops.constructor | integrated_autonomous_loops.py:8-11 | the dispatcher and agents as given, an empty history |
| Loops.IntegratedLoops.RunAllLoops | integrated_autonomous_loops.py:13-26 | either every round's "sd"/"self-directed" call returns and all entries are appended, or the run halts at the first failing call with exactly the earlier entries and its error; one sleep per completed round iff the delay is non-zero; no rounds for iterations <= 0 |
| Loops.AutonomousSdlcLoop | run_autonomous_sdlc_loop.py:6-14 | whatever the entry point answers, success or an `Exception`, it is entered exactly once per round, never for iterations <= 0; one sleep per round iff the delay is non-zero; no `Exception` escapes the loop |
| Loops.RunAllRounds | tests/test_integrated_autonomous_loops.py:13-22 | over the enhanced dispatcher every round's entry is appended and every sleep taken |
| Loops.RunAllLoopsScenario | tests/test_integrated_autonomous_loops.py:13-35 | two rounds give two entries with the dispatcher's answer and non-empty strings, and two sleeps; zero rounds change nothing |
| Loops.RunAllLoopsFailureScenario | integrated_autonomous_loops.py:14-24 | when the second call raises, the error propagates after one entry and one sleep |
| Loops.AutonomousSdlcLoopScenario | tests/test_run_autonomous_sdlc_loop.py:31-60 | an entry point that raises on the second call is still entered twice, with two sleeps, and the loop returns normally |
| TestingLoop.IsSourceFile | testing_loop_runner.py:23 | defines the source filter: the name ends in ".py" and does not start with "test_" |
| TestingLoop.SourcesIn | testing_loop_runner.py:22-24 | defines the joined paths of one directory's files that pass the filter, in listing order |
| TestingLoop.SourceFiles | testing_loop_runner.py:20-25 | defines the joined source paths of a whole walk, directory by directory in walk order |
| TestingLoop.Basename | testing_loop_runner.py:57 | defines posix `os.path.basename`: everything after the last separator |
| TestingLoop.Dirname | testing_loop_runner.py:56 | defines posix `os.path.dirname`: everything before the last separator, with trailing separators stripped unless it is all separators |
| TestingLoop.PathJoin | testing_loop_runner.py:55-58 | defines posix `os.path.join` of two parts: the second alone when absolute, otherwise the parts with one separator between them unless the first is empty or already ends in one |
| TestingLoop.TestPath | testing_loop_runner.py:55-58 | defines the test file's path: the source's dirname joined with "test_" + its basename |
| TestingLoop.LastSlash | testing_loop_runner.py:55-58 | the position of the last separator, with none after it |
| TestingLoop.BasenameHasNoSlash | testing_loop_runner.py:57 | a basename holds no separator |
| TestingLoop.RStripSlashes | testing_loop_runner.py:56 | stripping trailing separators leaves a prefix that does not end in one |
| TestingLoop.LastSlashAppend | testing_loop_runner.py:55-58 | appending a plain name keeps the last separator |
| TestingLoop.JoinSplits | testing_loop_runner.py:55-58 | a directory joined with a plain name splits back into that directory and name |
| TestingLoop.DirnameShape | testing_loop_runner.py:56 | a dirname is empty, all separators, or ends in something else |
| TestingLoop.TestPathShape | testing_loop_runner.py:55-58 | the test file sits in the source's directory, is named test_<basename>, and never passes the source filter |
| TestingLoop.TestNameHasNoSlash | testing_loop_runner.py:57 | prefixing test_ adds no separator |
| TestingLoop.TestNameIsNotSource | testing_loop_runner.py:23-57 | a test_ name never passes the source filter |
| TestingLoop.TestPathInDirectory | tests/test_testing_loop_runner.py:42-52 | dir/name gets dir/test_name, e.g. src/module.py gets src/test_module.py |
| TestingLoop.SourcesInComplete | testing_loop_runner.py:22-24 | every file of a directory that passes the filter is listed under its joined path |
| TestingLoop.SourcesInSound | testing_loop_runner.py:22-24 | nothing else is listed for a directory |
| TestingLoop.SourceFilesComplete | testing_loop_runner.py:16-25 | every file of the walk that passes the filter is listed |
| TestingLoop.SourceFilesSound | testing_loop_runner.py:16-25 | only such files are listed |
| TestingLoop.JoinedSourceIsPython | testing_loop_runner.py:23-24 | a joined source path ends in ".py" |
| TestingLoop.SourceFilesArePython | tests/test_testing_loop_runner.py:21-26 | every listed path ends in ".py" |
| TestingLoop.Chars | testing_loop_runner.py:45 | defines the one-character strings that iterating a str yields |
| TestingLoop.JoinLines | testing_loop_runner.py:45 | joining a list succeeds iff every item is a str; non-iterables raise |
| TestingLoop.StubOf | testing_loop_runner.py:43-47 | defines the stub an answer yields: `synthesis.key_insights` joined by newlines when truthy, the placeholder otherwise, and a failure where `.get` or the join would raise |
| TestingLoop.StubOfInsights | testing_loop_runner.py:43-45 | any dict answer whose synthesis dict holds a non-empty list of insight strings yields them joined by newlines, whatever other keys either dict carries |
| TestingLoop.StubStep | testing_loop_runner.py:36-47 | defines one file's step: the awaited call's error escapes, otherwise the stub its answer yields |
| TestingLoop.StubKeepsLines | tests/test_testing_loop_runner.py:30-40 | the stub contains every line, and splits back into them when no line holds a newline |
| TestingLoop.StubOfPlaceholder | testing_loop_runner.py:43-47 | a missing synthesis, missing insights or falsy insights give exactly the placeholder |
| TestingLoop.StubOfRaises | testing_loop_runner.py:43 | a non-dict answer, or a synthesis that is present but not a dict, raises |
| TestingLoop.StubRequest | testing_loop_runner.py:34-42 | defines one file's request: session id "testgen_" + `str(t)`, paradigm "orchestra", the prompt naming the file, the runner's agents and the test-generation context |
| TestingLoop.TestGenerationContext | testing_loop_runner.py:41 | defines the context every stub request carries: `{'mode': 'test_generation'}` |
| TestingLoop.StubRequestShape | testing_loop_runner.py:34-42 | every request has session id "testgen_" followed by `str(t)` of its clock reading, paradigm "orchestra", the test-generation context and the runner's agents, and names its file in its task |
| TestingLoop.StubRequests | testing_loop_runner.py:33-42 | defines the requests of a run over the files: request i is file i's request, stamped with clock reading r0 + i |
| TestingLoop.StubPairs | testing_loop_runner.py:33-47 | defines the (file, stub) assignments of a run: pair i is file i with the stub its answer yields |
| TestingLoop.StubAdvance | testing_loop_runner.py:36-47 | a file's step either advances the run with that file's stub or halts it at that file with the step's error |
| TestingLoop.ToMapSnoc | testing_loop_runner.py:45-47 | one more assignment updates the dict at its key |
| TestingLoop.ToMap | testing_loop_runner.py:45-47 | defines the dict built by assigning the pairs in order, a later assignment to a key replacing an earlier one |
| TestingLoop.ToMapHolds | testing_loop_runner.py:45-47 | the dict built by the assignments has exactly the assigned keys, each mapped to its last assignment |
| TestingLoop.StubMapHolds | testing_loop_runner.py:32-48 | the stub dict's keys are exactly the source files, each with the stub of its last occurrence |
| TestingLoop.StubsOutcome | testing_loop_runner.py:32-48 | a failed generation carries the first failing call's error; a completed one has exactly the source files as keys |
| TestingLoop.TestRecord | testing_loop_runner.py:66-88 | success with output and report on a clean exit, failure with output and error on a non-zero exit; any other exception, or a failed report read, escapes |
| TestingLoop.WroteStep | testing_loop_runner.py:54-60 | writing one more stub to its path keeps the account of written files |
| TestingLoop.Wrote | testing_loop_runner.py:54-60 | defines the account of writes: each written source's stub is at its test path, and every other file is as it was |
| TestingLoop.WroteDistinct | testing_loop_runner.py:54-60 | with distinct paths each source's test file holds its own stub and other files keep their content |
| TestingLoop.WroteHasTestFiles | testing_loop_runner.py:54-60 | after the writes every source has a file at its test path |
| TestingLoop.Disk.constructor | testing_loop_runner.py:59-60 | the project's files as given |
| TestingLoop.TestingLoopRunner.constructor | testing_loop_runner.py:10-14 | the collaborators, agents and root as given, no results |
| TestingLoop.TestingLoopRunner.InspectFileStructure | testing_loop_runner.py:16-25 | the nested loop lists exactly the walk's source files in walk order |
| TestingLoop.TestingLoopRunner.GenerateOne | testing_loop_runner.py:34-47 | one file's step reads the clock once and either advances the chain with that file's stub or halts it |
| TestingLoop.TestingLoopRunner.GenerateTestStubs | testing_loop_runner.py:27-48 | either every call returns and the result is the dict of all (file, stub) assignments, after one clock reading per file, or generation halts at the first failing call with its error |
| TestingLoop.TestingLoopRunner.GenerateEach | testing_loop_runner.py:33-48 | the loop over the files, stated over the requests fixed at its start |
| TestingLoop.TestingLoopRunner.WriteTestFiles | testing_loop_runner.py:50-60 | each stub is written to its source's test path and no other file changes |
| TestingLoop.TestingLoopRunner.RunTests | testing_loop_runner.py:62-88 | the record is appended and returned; an escaping exception appends nothing |
| TestingLoop.TestingLoopRunner.RunTestingLoop | testing_loop_runner.py:90-98 | if a stub call raises, its error escapes with no file written and no result; otherwise every source file gets its test file and the result is the test-run record |
| TestingLoop.TestingLoopRunner.WriteAndRun | testing_loop_runner.py:96-97 | writing then running gives every source its test file and the test-run record |
| TestingScenarios.GenerateStubsScenario | tests/test_testing_loop_runner.py:30-40 | one file with an answer of insight lines maps exactly that file to the joined lines, which contain every line |
| TestingScenarios.GenerateStubsFailureScenario | testing_loop_runner.py:33-48 | with a second call that raises, the error escapes after two calls and two clock readings |

## Left out

- Concurrency and scheduling are not modelled. Every `await` is a sequential step, and `asyncio.sleep` is recorded in the clock's sleep log. The `asyncio.sleep(0)` yields in the dispatchers and agents are dropped.
- `A2AAgent.start`/`stop` are not modelled because they are no-ops. The default `receive_message` is modelled as a recorded handler call.
- Floating point is not modelled. `AgentCapability.reliability` and the pipeline's `coverage = 0.0` are carried as `real` literals with no arithmetic.
- `int(time.time())` is modelled as an integer clock reading supplied as input. The float time and its truncation are not modelled.
- Python dict key order is not kept in `Value` dictionaries. Only the mesh registry keeps its key order, in `order`, because peer-list order depends on it.
- Mesh.Orchestrator.RegisterAgent: the registry size is not stated. It follows from `agents == old(agents)[id := agent]` and is not a separate clause.
- The directory walk (`os.walk`), the pytest subprocess and the `report.json` read are inputs to the runner: a `WalkEntry` sequence, a `PytestRun`, and an `Outcome<string>` for the report.
- File writes are modelled as updates of a path-to-content map. I/O errors while writing are not modelled.
- TestingLoop.TestingLoopRunner.WriteTestFiles: the stubs are written in an arbitrary order, not in the dict's insertion order. This matters only when two sources share a test path; `WroteDistinct` states the result when they do not.
- TestingLoop.JoinLines: joining the keys of a dict is modelled as a failure, not as Python's join over the keys.
- `Loops.Entries` and `TestingLoop.StubPairs` fill the slot of a failing call with a placeholder. That slot is never part of a history.
- `web_server.py` and `Knowledge_Graph_Snippet.py` are not part of this model; they are HTTP and database plumbing.
- The integration test suites (`tests/end_to_end_test_suite.py`, `tests/test_suite.py`, `test_suite_old.py`, `test_orchestrator.py`) are not modelled. The stale expectations of `test_suite_old.py` (status "completed", an error for an unknown paradigm) contradict the code, and the code is followed.
- Provider internals are not modelled, and paradigm labels are opaque strings.
- Loops.AutonomousSdlcLoop: only `Exception` subclasses are swallowed (`except Exception`, run_autonomous_sdlc_loop.py line 10). Errors that derive only from `BaseException` propagate out of the loop: `asyncio.CancelledError`, `KeyboardInterrupt` and `SystemExit`. `Outcome` has one kind of failure, so these are not modelled, and every modelled failure is an `Exception`.
- Pipeline.ExtendedPipeline.RunPipeline: a stage's output dict is both appended to `self.history` and passed by reference as the next stages' `context` (extended_autonomous_pipeline.py lines 30-40, 52, 64 and 76). A dispatcher that mutated its `context` would rewrite records already in the history. `Value` is immutable, so the model assumes dispatchers do not mutate `context`, which holds for both dispatchers modelled here; "exactly the earlier records" is proved under that assumption.
- Pipeline.ExtendedPipeline.RunPipeline: `run_pipeline` returns the live `self.history` list itself. A list a caller got from an earlier run is the same object and grows with later runs. The model returns the history's value at the end of the run, so this aliasing is not captured; `RunTwiceScenario` is stated about `p.history`.

## Behaviour of the code worth knowing

- The collaboration result's status is the string "ok".
- Only `SimpleOrchestrator` records sessions; `EnhancedOrchestrator` keeps no session state.
- Peers are append-ordered lists, not sets.
- The loops sleep after every round, including the last.
