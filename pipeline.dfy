/**
 * The eight-stage SDLC pipeline of extended_autonomous_pipeline.py: each
 * stage awaits one collaboration call and then appends one `LoopRecord` to
 * an append-only history; `run_pipeline` chains the stages with no
 * exception handler, so the first failing call ends the run.
 */
module Pipeline {
  import opened Values
  import opened Oracles
  import opened Dispatch

  /** `LoopRecord(name, result)`. */
  datatype LoopRecord = LoopRecord(name: string, result: Value)

  /** The eight stage methods, each with the argument it is awaited with. */
  datatype Stage =
    | RequirementExtraction(rawInput: string)
    | ArchitectureSynthesis(backlog: Value)
    | CodeGeneration(design: Value)
    | AutomatedTesting(code: Value)
    | CodeReview(reviewed: Value)
    | DeploymentOrchestration
    | Monitoring
    | MetricsFeedback

  /** The method name: both the session id of its call and the name of its record. */
  function Name(s: Stage): string {
    match s
    case RequirementExtraction(_) => "requirement_extraction"
    case ArchitectureSynthesis(_) => "architecture_synthesis"
    case CodeGeneration(_) => "code_generation"
    case AutomatedTesting(_) => "automated_testing"
    case CodeReview(_) => "code_review"
    case DeploymentOrchestration => "deployment_orchestration"
    case Monitoring => "monitoring"
    case MetricsFeedback => "metrics_feedback"
  }

  /** The fixed paradigm label each stage passes to the dispatcher. */
  function Paradigm(s: Stage): string {
    match s
    case RequirementExtraction(_) => "analysis"
    case ArchitectureSynthesis(_) => "design"
    case CodeGeneration(_) => "implementation"
    case AutomatedTesting(_) => "testing"
    case CodeReview(_) => "review"
    case DeploymentOrchestration => "deployment"
    case Monitoring => "observability"
    case MetricsFeedback => "feedback"
  }

  /** A stage's task string: the raw input for requirement extraction, a fixed phrase otherwise. */
  function Task(s: Stage): string {
    match s
    case RequirementExtraction(raw) => raw
    case ArchitectureSynthesis(_) => "synthesize architecture"
    case CodeGeneration(_) => "generate code"
    case AutomatedTesting(_) => "run tests"
    case CodeReview(_) => "analyze code"
    case DeploymentOrchestration => "deploy"
    case Monitoring => "monitor"
    case MetricsFeedback => "retrain"
  }

  /** The `context=` argument: the previous output where the stage takes one. */
  function Context(s: Stage): Option<Value> {
    match s
    case ArchitectureSynthesis(backlog) => Some(backlog)
    case CodeGeneration(design) => Some(design)
    case AutomatedTesting(code) => Some(code)
    case CodeReview(code) => Some(code)
    case _ => None
  }

  /** The dictionary a stage records and returns; the collaboration answer is not used. */
  function Output(s: Stage): Value {
    match s
    case RequirementExtraction(raw) => Dict(map["stories" := StrList([raw]), "criteria" := List([])])
    case ArchitectureSynthesis(_) =>
      Dict(map["modules" := List([]), "interactions" := List([]), "infra" := Dict(map[])])
    case CodeGeneration(_) => Dict(map["services" := List([])])
    case AutomatedTesting(_) => Dict(map["coverage" := Float(0.0)])
    case CodeReview(_) => Dict(map["issues" := List([])])
    case DeploymentOrchestration => Dict(map["status" := Str("ok")])
    case Monitoring => Dict(map["alerts" := Int(0)])
    case MetricsFeedback => Dict(map["improved" := Bool(true)])
  }

  /** The collaboration call a stage makes on behalf of the pipeline's agents. */
  function StageRequest(s: Stage, agents: seq<string>): Request {
    Request(Name(s), Paradigm(s), Task(s), agents, Context(s))
  }

  /** The record a stage appends once its call has returned. */
  function Record(s: Stage): LoopRecord {
    LoopRecord(Name(s), Output(s))
  }

  /**
   * The stages `run_pipeline(raw)` awaits, in order, each fed the output of
   * the stage its source line names.
   */
  function Stages(raw: string): seq<Stage> {
    var backlog := Output(RequirementExtraction(raw));
    var design := Output(ArchitectureSynthesis(backlog));
    var code := Output(CodeGeneration(design));
    [RequirementExtraction(raw), ArchitectureSynthesis(backlog), CodeGeneration(design),
     AutomatedTesting(code), CodeReview(code), DeploymentOrchestration, Monitoring, MetricsFeedback]
  }

  /** The calls of a complete run, in order. */
  function Requests(raw: string, agents: seq<string>): (reqs: seq<Request>)
    ensures |reqs| == 8
  {
    var st := Stages(raw);
    [StageRequest(st[0], agents), StageRequest(st[1], agents), StageRequest(st[2], agents),
     StageRequest(st[3], agents), StageRequest(st[4], agents), StageRequest(st[5], agents),
     StageRequest(st[6], agents), StageRequest(st[7], agents)]
  }

  /** The records of a complete run, in order. */
  function Records(raw: string): (recs: seq<LoopRecord>)
    ensures |recs| == 8
  {
    var st := Stages(raw);
    [Record(st[0]), Record(st[1]), Record(st[2]), Record(st[3]),
     Record(st[4]), Record(st[5]), Record(st[6]), Record(st[7])]
  }

  const StageNames := ["requirement_extraction", "architecture_synthesis", "code_generation",
    "automated_testing", "code_review", "deployment_orchestration", "monitoring", "metrics_feedback"]

  const StageParadigms := ["analysis", "design", "implementation", "testing", "review",
    "deployment", "observability", "feedback"]

  /**
   * A complete run records the eight stages in pipeline order, and each of
   * its calls uses the stage's name as session id, its fixed paradigm label
   * and the pipeline's agents.
   */
  lemma RunShape(raw: string, agents: seq<string>)
    ensures forall i :: 0 <= i < 8 ==> Records(raw)[i].name == StageNames[i]
    ensures forall i :: 0 <= i < 8 ==>
      && Requests(raw, agents)[i].sessionId == StageNames[i]
      && Requests(raw, agents)[i].agents == agents
    ensures forall i :: 0 <= i < 8 ==>
      Requests(raw, agents)[i].paradigm == StageParadigms[i]
  {
  }

  /**
   * Each output is forwarded as the next call's context along the source's
   * data flow: backlog to architecture synthesis, design to code generation,
   * and code to both testing and review; the other calls carry none.
   */
  lemma ContextFlow(raw: string, agents: seq<string>)
    ensures Requests(raw, agents)[0].context == None
    ensures Requests(raw, agents)[1].context == Some(Records(raw)[0].result)
    ensures Requests(raw, agents)[2].context == Some(Records(raw)[1].result)
    ensures Requests(raw, agents)[3].context == Some(Records(raw)[2].result)
    ensures Requests(raw, agents)[4].context == Some(Records(raw)[2].result)
    ensures forall i :: 5 <= i < 8 ==> Requests(raw, agents)[i].context == None
  {
  }

  /** Requirement extraction records the raw input as the only story, with no criteria. */
  lemma BacklogHoldsRawInput(raw: string, agents: seq<string>)
    ensures Records(raw)[0].result.Dict?
    ensures Records(raw)[0].result.entries.Keys == {"stories", "criteria"}
    ensures StringsOf(Records(raw)[0].result.entries["stories"].items) == Some([raw])
    ensures Records(raw)[0].result.entries["criteria"] == List([])
    ensures Requests(raw, agents)[0].task == raw
  {
    StringsOfStrList([raw]);
  }

  /** Position `j` of a complete run is stage `j`'s call and record. */
  lemma StageAt(raw: string, agents: seq<string>, j: nat)
    requires j < 8
    ensures Requests(raw, agents)[j] == StageRequest(Stages(raw)[j], agents)
    ensures Records(raw)[j] == Record(Stages(raw)[j])
  {
  }

  /** The position of the first failing call of a run that starts at call position `n0`. */
  function FailingStage(reply: (nat, Request) -> Outcome<Value>, n0: nat, raw: string, agents: seq<string>): (k: nat)
    ensures k <= 8
  {
    FirstFailure(Replies(reply, n0, Requests(raw, agents)))
  }

  class ExtendedPipeline {
    const dispatcher: Oracle<Request, Value>
    const agents: seq<string>
    var history: seq<LoopRecord>

    constructor (dispatcher: Oracle<Request, Value>, agents: seq<string>)
      ensures this.dispatcher == dispatcher && this.agents == agents && history == []
    {
      this.dispatcher := dispatcher;
      this.agents := agents;
      history := [];
    }

    /**
     * One stage method: the call goes out first; only if it returns is the
     * stage's record appended and its output returned. A failing call leaves
     * the history as it was and propagates.
     */
    method RunStage(s: Stage) returns (r: Outcome<Value>)
      modifies this`history, dispatcher`calls
      ensures dispatcher.calls == old(dispatcher.calls) + [StageRequest(s, agents)]
      ensures var o := dispatcher.reply(|old(dispatcher.calls)|, StageRequest(s, agents));
        && (o.Ok? ==> r == Ok(Output(s)) && history == old(history) + [Record(s)])
        && (o.Fail? ==> r == Fail(o.error) && history == old(history))
    {
      var _ :- dispatcher.Call(StageRequest(s, agents));
      history := history + [Record(s)];
      r := Ok(Output(s));
    }

    /**
     * Stage `j` awaited inside `run_pipeline`, once the run has reached it:
     * either the run reaches stage `j + 1`, or it halts here.
     */
    method Advance(s: Stage, ghost raw: string, ghost j: nat, ghost h0: seq<LoopRecord>, ghost c0: seq<Request>)
      returns (r: Outcome<Value>)
      requires j < 8 && s == Stages(raw)[j]
      requires Reached(dispatcher.reply, Requests(raw, agents), Records(raw), j, h0, c0, history, dispatcher.calls)
      modifies this`history, dispatcher`calls
      ensures r.Ok? ==> r.value == Output(s)
      ensures r.Ok? ==> Reached(dispatcher.reply, Requests(raw, agents), Records(raw), j + 1, h0, c0, history, dispatcher.calls)
      ensures r.Fail? ==> Halted(dispatcher.reply, Requests(raw, agents), Records(raw), h0, c0, history, dispatcher.calls, r.error)
    {
      ghost var h, c := history, dispatcher.calls;
      StageAt(raw, agents, j);
      r := RunStage(s);
      if r.Fail? {
        ChainStop(dispatcher.reply, Requests(raw, agents), Records(raw), j, h0, c0, h, c, dispatcher.calls);
      } else {
        ChainStep(dispatcher.reply, Requests(raw, agents), Records(raw), j, h0, c0, h, c, history, dispatcher.calls);
      }
    }

    /** The first three stages of `run_pipeline`, whose outputs feed each other; the code is returned. */
    method ThroughCodeGeneration(raw: string, ghost h0: seq<LoopRecord>, ghost c0: seq<Request>) returns (r: Outcome<Value>)
      requires Reached(dispatcher.reply, Requests(raw, agents), Records(raw), 0, h0, c0, history, dispatcher.calls)
      modifies this`history, dispatcher`calls
      ensures r.Ok? ==> r.value == Output(Stages(raw)[2])
      ensures r.Ok? ==> Reached(dispatcher.reply, Requests(raw, agents), Records(raw), 3, h0, c0, history, dispatcher.calls)
      ensures r.Fail? ==> Halted(dispatcher.reply, Requests(raw, agents), Records(raw), h0, c0, history, dispatcher.calls, r.error)
    {
      var backlog :- Advance(RequirementExtraction(raw), raw, 0, h0, c0);
      var design :- Advance(ArchitectureSynthesis(backlog), raw, 1, h0, c0);
      r := Advance(CodeGeneration(design), raw, 2, h0, c0);
    }

    /**
     * `run_pipeline`: the stages in order with nothing caught. Either every
     * call returns, each stage's record is appended and the whole history
     * is returned, or the run halts at the first call that raises, with the
     * records of the stages before it appended and that call's error.
     */
    method RunPipeline(raw: string) returns (r: Outcome<seq<LoopRecord>>)
      modifies this`history, dispatcher`calls
      ensures r.Ok? ==> r.value == history
      ensures r.Ok? ==> Reached(dispatcher.reply, Requests(raw, agents), Records(raw), 8,
                                old(history), old(dispatcher.calls), history, dispatcher.calls)
      ensures r.Fail? ==> Halted(dispatcher.reply, Requests(raw, agents), Records(raw),
                                 old(history), old(dispatcher.calls), history, dispatcher.calls, r.error)
    {
      ghost var h0, c0 := history, dispatcher.calls;
      ChainStart(dispatcher.reply, Requests(raw, agents), Records(raw), h0, c0);
      var code :- ThroughCodeGeneration(raw, h0, c0);
      var checked :- Advance(AutomatedTesting(code), raw, 3, h0, c0);
      var reviewed :- Advance(CodeReview(code), raw, 4, h0, c0);
      var deployed :- Advance(DeploymentOrchestration, raw, 5, h0, c0);
      var monitored :- Advance(Monitoring, raw, 6, h0, c0);
      var feedback :- Advance(MetricsFeedback, raw, 7, h0, c0);
      r := Ok(history);
    }
  }

  // ---------------------------------------------------------------------
  // Runs against concrete dispatchers
  // ---------------------------------------------------------------------

  /** A complete run appends every record and makes every call. */
  lemma CompleteRun(reply: (nat, Request) -> Outcome<Value>, raw: string, agents: seq<string>,
                    h0: seq<LoopRecord>, c0: seq<Request>, h: seq<LoopRecord>, c: seq<Request>)
    requires Reached(reply, Requests(raw, agents), Records(raw), 8, h0, c0, h, c)
    ensures FailingStage(reply, |c0|, raw, agents) == 8
    ensures h == h0 + Records(raw) && c == c0 + Requests(raw, agents)
    ensures forall i :: 0 <= i < 8 ==> h[|h0| + i].name == StageNames[i]
  {
    ChainDone(reply, Requests(raw, agents), Records(raw), h0, c0, h, c);
    RunShape(raw, agents);
  }

  /** The dispatcher that raises on its third call and answers every other one. */
  function ThirdCallFails(n: nat, req: Request): Outcome<Value> {
    if n == 2 then Fail("dispatcher unavailable") else EnhancedReply(n, req)
  }

  /** Over the enhanced dispatcher every call returns, so a run always completes. */
  method RunToCompletion(p: ExtendedPipeline, raw: string) returns (r: Outcome<seq<LoopRecord>>)
    requires p.dispatcher.reply == EnhancedReply
    modifies p`history, p.dispatcher`calls
    ensures r == Ok(p.history)
    ensures p.history == old(p.history) + Records(raw)
    ensures p.dispatcher.calls == old(p.dispatcher.calls) + Requests(raw, p.agents)
  {
    ghost var h0, c0 := p.history, p.dispatcher.calls;
    r := p.RunPipeline(raw);
    FirstFailureIs(Replies(EnhancedReply, |c0|, Requests(raw, p.agents)), 8);
    if r.Fail? {
      assert false;
    }
    CompleteRun(EnhancedReply, raw, p.agents, h0, c0, p.history, p.dispatcher.calls);
  }

  /**
   * With a fresh pipeline over the enhanced dispatcher, `run_pipeline`
   * returns the eight records in stage order after eight calls.
   */
  method FullRunScenario(raw: string, agents: seq<string>) returns (r: Outcome<seq<LoopRecord>>, calls: nat)
    ensures r.Ok? && |r.value| == 8
    ensures forall i :: 0 <= i < 8 ==> r.value[i].name == StageNames[i]
    ensures calls == 8
  {
    var d := new Oracle<Request, Value>(EnhancedReply);
    var p := new ExtendedPipeline(d, agents);
    r := RunToCompletion(p, raw);
    RunShape(raw, agents);
    calls := |d.calls|;
  }

  /**
   * When the third call raises, `run_pipeline` raises its error after
   * recording only requirement extraction and architecture synthesis.
   */
  method FailingRunScenario(raw: string, agents: seq<string>) returns (r: Outcome<seq<LoopRecord>>, names: seq<string>, calls: nat)
    ensures r == Fail("dispatcher unavailable")
    ensures names == ["requirement_extraction", "architecture_synthesis"]
    ensures calls == 3
  {
    var d := new Oracle<Request, Value>(ThirdCallFails);
    var p := new ExtendedPipeline(d, agents);
    r := p.RunPipeline(raw);
    FirstFailureIs(Replies(ThirdCallFails, 0, Requests(raw, agents)), 2);
    if r.Ok? {
      assert false;
    }
    RunShape(raw, agents);
    names := [p.history[0].name, p.history[1].name];
    calls := |d.calls|;
  }

  /**
   * The history is append-only: a second run on the same pipeline leaves the
   * first eight records as they were and appends eight more.
   */
  method RunTwiceScenario(raw1: string, raw2: string, agents: seq<string>)
    returns (first: seq<LoopRecord>, second: seq<LoopRecord>)
    ensures |first| == 8 && |second| == 16
    ensures second[..8] == first
    ensures forall i :: 0 <= i < 8 ==> second[8 + i].name == StageNames[i]
  {
    var d := new Oracle<Request, Value>(EnhancedReply);
    var p := new ExtendedPipeline(d, agents);
    var _ := RunToCompletion(p, raw1);
    first := p.history;
    var _ := RunToCompletion(p, raw2);
    second := p.history;
    RunShape(raw2, agents);
  }
}
