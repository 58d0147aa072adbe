/**
 * The two iteration supervisors: `IntegratedAutonomousLoops.run_all_loops`
 * (integrated_autonomous_loops.py), which collects one performance entry
 * per round and lets a failing call propagate, and `autonomous_sdlc_loop`
 * (run_autonomous_sdlc_loop.py), which swallows every per-round exception
 * and always completes its rounds. Both sleep after a round iff the delay
 * is non-zero.
 */
module Loops {
  import opened Values
  import opened Oracles
  import opened Dispatch

  // ---------------------------------------------------------------------
  // IntegratedAutonomousLoops.run_all_loops
  // ---------------------------------------------------------------------

  /** One `performance_history` entry. */
  datatype PerformanceEntry = PerformanceEntry(sdResult: Value, feedbackResult: string, optimizationResult: string)

  /** The entry as the dictionary the source appends. */
  function EntryDict(e: PerformanceEntry): Value {
    Dict(map[
      "sd_result" := e.sdResult,
      "feedback_result" := Str(e.feedbackResult),
      "optimization_result" := Str(e.optimizationResult)])
  }

  /** The self-directed call every round makes. */
  function SdRequest(task: string, agents: seq<string>): Request {
    Request("sd", "self-directed", task, agents, None)
  }

  /** The entry of a round whose call answered `sd`. */
  function Entry(sd: Value, task: string): PerformanceEntry {
    PerformanceEntry(sd, "feedback for " + task, "optimization for " + task)
  }

  /**
   * The entries of `n` rounds whose calls start at position `n0`. A round
   * whose call raises appends nothing, so its slot (holding `Null`) is never
   * part of a history.
   */
  function Entries(reply: (nat, Request) -> Outcome<Value>, n0: nat, task: string, agents: seq<string>, n: nat)
    : (es: seq<PerformanceEntry>)
    ensures |es| == n
  {
    seq(n, i requires 0 <= i < n =>
      var o := reply(n0 + i, SdRequest(task, agents));
      Entry(if o.Ok? then o.value else Null, task))
  }

  /**
   * Round `i`'s entry holds that round's answer as `sd_result` and the two
   * fixed strings naming its task, and it is a dictionary with exactly the
   * three keys of the source.
   */
  lemma EntriesHoldAnswers(reply: (nat, Request) -> Outcome<Value>, n0: nat, task: string, agents: seq<string>, n: nat, i: nat)
    requires i < n && reply(n0 + i, SdRequest(task, agents)).Ok?
    ensures var e := Entries(reply, n0, task, agents, n)[i];
      && e.sdResult == reply(n0 + i, SdRequest(task, agents)).value
      && e.feedbackResult == "feedback for " + task
      && e.optimizationResult == "optimization for " + task
      && EntryDict(e).entries.Keys == {"sd_result", "feedback_result", "optimization_result"}
  {
  }

  class IntegratedLoops {
    const dispatcher: Oracle<Request, Value>
    const clock: Clock
    const agents: seq<string>
    var performanceHistory: seq<PerformanceEntry>

    constructor (dispatcher: Oracle<Request, Value>, clock: Clock, agents: seq<string>)
      ensures this.dispatcher == dispatcher && this.clock == clock && this.agents == agents
      ensures performanceHistory == []
    {
      this.dispatcher := dispatcher;
      this.clock := clock;
      this.agents := agents;
      performanceHistory := [];
    }

    /**
     * `run_all_loops(task, iterations, delay_seconds)`: up to `iterations`
     * rounds, each awaiting the self-directed call and then appending its
     * entry, with nothing caught. Either every round's call returns and all
     * rounds' entries are appended, or the run halts at the first call that
     * raises, with the entries of the rounds before it and that call's
     * error. A sleep follows every completed round iff the delay is non-zero.
     */
    method RunAllLoops(task: string, iterations: int, delaySeconds: int) returns (r: Outcome<()>)
      modifies this`performanceHistory, dispatcher`calls, clock`sleeps
      ensures var reqs := Repeat(SdRequest(task, agents), Rounds(iterations));
        var recs := Entries(dispatcher.reply, |old(dispatcher.calls)|, task, agents, Rounds(iterations));
        && (r.Ok? ==> Reached(dispatcher.reply, reqs, recs, Rounds(iterations),
                              old(performanceHistory), old(dispatcher.calls), performanceHistory, dispatcher.calls))
        && (r.Fail? ==> Halted(dispatcher.reply, reqs, recs,
                               old(performanceHistory), old(dispatcher.calls), performanceHistory, dispatcher.calls, r.error))
      ensures |old(performanceHistory)| <= |performanceHistory|
      ensures clock.sleeps == old(clock.sleeps) + Pauses(delaySeconds, |performanceHistory| - |old(performanceHistory)|)
    {
      ghost var reqs := Repeat(SdRequest(task, agents), Rounds(iterations));
      ghost var recs := Entries(dispatcher.reply, |dispatcher.calls|, task, agents, Rounds(iterations));
      ghost var h0, c0, s0 := performanceHistory, dispatcher.calls, clock.sleeps;
      ChainStart(dispatcher.reply, reqs, recs, h0, c0);
      var i := 0;
      while i < iterations
        invariant 0 <= i <= Rounds(iterations)
        invariant Reached(dispatcher.reply, reqs, recs, i, h0, c0, performanceHistory, dispatcher.calls)
        invariant |performanceHistory| == |h0| + i
        invariant clock.sleeps == s0 + Pauses(delaySeconds, i)
      {
        ghost var h, c := performanceHistory, dispatcher.calls;
        var o := dispatcher.Call(SdRequest(task, agents));
        if o.Fail? {
          ChainStop(dispatcher.reply, reqs, recs, i, h0, c0, h, c, dispatcher.calls);
          return Fail(o.error);
        }
        assert |c| == |c0| + i && recs[i] == Entry(o.value, task);
        var sdResult := o.value;
        var feedbackResult := "feedback for " + task;
        var optimizationResult := "optimization for " + task;
        performanceHistory := performanceHistory + [PerformanceEntry(sdResult, feedbackResult, optimizationResult)];
        ChainStep(dispatcher.reply, reqs, recs, i, h0, c0, h, c, performanceHistory, dispatcher.calls);
        if delaySeconds != 0 {
          clock.Sleep(delaySeconds);
        }
        PausesStep(delaySeconds, i);
        i := i + 1;
      }
      r := Ok(());
    }
  }

  // ---------------------------------------------------------------------
  // autonomous_sdlc_loop
  // ---------------------------------------------------------------------

  /** The arguments of `enter_autonomous_sdlc_mode(task, agents)`. */
  datatype ModeRequest = ModeRequest(task: string, agents: seq<string>)

  /** `enter_autonomous_sdlc_mode` as the source defines it: it always returns its summary. */
  function EnterModeReply(n: nat, q: ModeRequest): Outcome<string> {
    Ok(EnterAutonomousSdlcMode(q.task, q.agents))
  }

  /**
   * `autonomous_sdlc_loop(task, agents, iterations, delay_seconds)`: every
   * round awaits `enter_autonomous_sdlc_mode` and drops whatever it raises,
   * so whatever the entry point answers, it is entered exactly once per
   * round (never for `iterations <= 0`), a sleep follows every round iff
   * the delay is non-zero, and the loop itself never raises.
   */
  method AutonomousSdlcLoop(mode: Oracle<ModeRequest, string>, clock: Clock, task: string, agents: seq<string>,
                            iterations: int, delaySeconds: int) returns (r: Outcome<()>)
    modifies mode`calls, clock`sleeps
    ensures r == Ok(())
    ensures mode.calls == old(mode.calls) + Repeat(ModeRequest(task, agents), Rounds(iterations))
    ensures clock.sleeps == old(clock.sleeps) + Pauses(delaySeconds, Rounds(iterations))
  {
    var i := 0;
    while i < iterations
      invariant 0 <= i <= Rounds(iterations)
      invariant mode.calls == old(mode.calls) + Repeat(ModeRequest(task, agents), i)
      invariant clock.sleeps == old(clock.sleeps) + Pauses(delaySeconds, i)
    {
      var _ := mode.Call(ModeRequest(task, agents));
      assert Repeat(ModeRequest(task, agents), i + 1) == Repeat(ModeRequest(task, agents), i) + [ModeRequest(task, agents)];
      if delaySeconds != 0 {
        clock.Sleep(delaySeconds);
      }
      PausesStep(delaySeconds, i);
      i := i + 1;
    }
    r := Ok(());
  }

  // ---------------------------------------------------------------------
  // Runs against concrete collaborators
  // ---------------------------------------------------------------------

  /** The dispatcher that raises on its second call and answers every other one. */
  function SecondCallFails(n: nat, req: Request): Outcome<Value> {
    if n == 1 then Fail("dispatcher unavailable") else EnhancedReply(n, req)
  }

  /** Over the enhanced dispatcher every call returns, so every round's entry is appended. */
  method RunAllRounds(loops: IntegratedLoops, task: string, iterations: int, delaySeconds: int) returns (r: Outcome<()>)
    requires loops.dispatcher.reply == EnhancedReply
    modifies loops`performanceHistory, loops.dispatcher`calls, loops.clock`sleeps
    ensures r == Ok(())
    ensures loops.performanceHistory == old(loops.performanceHistory)
      + Entries(EnhancedReply, |old(loops.dispatcher.calls)|, task, loops.agents, Rounds(iterations))
    ensures loops.clock.sleeps == old(loops.clock.sleeps) + Pauses(delaySeconds, Rounds(iterations))
  {
    ghost var h0, c0 := loops.performanceHistory, loops.dispatcher.calls;
    ghost var reqs := Repeat(SdRequest(task, loops.agents), Rounds(iterations));
    ghost var recs := Entries(EnhancedReply, |c0|, task, loops.agents, Rounds(iterations));
    r := loops.RunAllLoops(task, iterations, delaySeconds);
    FirstFailureIs(Replies(EnhancedReply, |c0|, reqs), |reqs|);
    if r.Fail? {
      assert false;
    }
    ChainDone(EnhancedReply, reqs, recs, h0, c0, loops.performanceHistory, loops.dispatcher.calls);
    assert r.value == ();
  }

  /**
   * Two rounds over the enhanced dispatcher with a one-second delay append
   * two entries with non-empty feedback and optimization strings and the
   * dispatcher's answer as `sd_result`, and sleep twice; a further call with
   * no rounds changes nothing.
   */
  method RunAllLoopsScenario(task: string, agents: seq<string>)
    returns (r: Outcome<()>, history: seq<PerformanceEntry>, sleeps: seq<int>, after: seq<PerformanceEntry>)
    ensures r == Ok(()) && |history| == 2
    ensures forall i :: 0 <= i < 2 ==>
      && history[i].sdResult == Collaboration("self-directed", task, agents)
      && |history[i].feedbackResult| > 0 && |history[i].optimizationResult| > 0
    ensures sleeps == [1, 1]
    ensures after == history
  {
    var d := new Oracle<Request, Value>(EnhancedReply);
    var clock := new Clock(_ => 0);
    var loops := new IntegratedLoops(d, clock, agents);
    r := RunAllRounds(loops, task, 2, 1);
    history := loops.performanceHistory;
    EntriesHoldAnswers(EnhancedReply, 0, task, agents, 2, 0);
    EntriesHoldAnswers(EnhancedReply, 0, task, agents, 2, 1);
    sleeps := clock.sleeps;
    var _ := RunAllRounds(loops, task, -1, 1);
    after := loops.performanceHistory;
  }

  /**
   * When the second round's call raises, `run_all_loops` raises its error
   * after appending the first round's entry and sleeping once.
   */
  method RunAllLoopsFailureScenario(task: string, agents: seq<string>)
    returns (r: Outcome<()>, entries: nat, sleeps: seq<int>)
    ensures r == Fail("dispatcher unavailable")
    ensures entries == 1 && sleeps == [1]
  {
    var d := new Oracle<Request, Value>(SecondCallFails);
    var clock := new Clock(_ => 0);
    var loops := new IntegratedLoops(d, clock, agents);
    r := loops.RunAllLoops(task, 3, 1);
    FirstFailureIs(Replies(SecondCallFails, 0, Repeat(SdRequest(task, agents), 3)), 1);
    if r.Ok? {
      assert false;
    }
    entries := |loops.performanceHistory|;
    sleeps := clock.sleeps;
  }

  /** The entry point that raises on its second call, as the source's tests patch it. */
  function SecondEntryFails(n: nat, q: ModeRequest): Outcome<string> {
    if n == 1 then Fail("Simulated failure") else EnterModeReply(n, q)
  }

  /**
   * With an entry point that raises on the second call, two rounds still
   * enter the mode twice, sleep twice and return normally.
   */
  method AutonomousSdlcLoopScenario(task: string, agents: seq<string>) returns (r: Outcome<()>, entered: nat, sleeps: seq<int>)
    ensures r == Ok(()) && entered == 2 && sleeps == [1, 1]
  {
    var mode := new Oracle<ModeRequest, string>(SecondEntryFails);
    var clock := new Clock(_ => 0);
    r := AutonomousSdlcLoop(mode, clock, task, agents, 2, 1);
    entered := |mode.calls|;
    sleeps := clock.sleeps;
  }
}
