/**
 * The collaborators the core calls but does not own: the collaboration
 * dispatcher awaited by the pipeline, the loops and the test runner, the
 * `enter_autonomous_sdlc_mode` entry point awaited by the SDLC loop, and
 * the wall clock and event loop (`time.time()`, `asyncio.sleep`).
 *
 * A collaborator is an `Oracle`: it logs every call it receives and answers
 * from a fixed script that may depend on the call's position and request,
 * so a scenario such as "the second call raises" is one script.
 */
module Oracles {
  import opened Values

  class Oracle<Q, A> {
    /** Every request received so far, in call order. */
    var calls: seq<Q>
    /** The answer to the call at a given position with a given request. */
    const reply: (nat, Q) -> Outcome<A>

    constructor (reply: (nat, Q) -> Outcome<A>)
      ensures calls == [] && this.reply == reply
    {
      calls := [];
      this.reply := reply;
    }

    method Call(q: Q) returns (o: Outcome<A>)
      modifies this`calls
      ensures calls == old(calls) + [q]
      ensures o == reply(|old(calls)|, q)
    {
      o := reply(|calls|, q);
      calls := calls + [q];
    }
  }

  /** `time.time()` readings and `asyncio.sleep` requests. */
  class Clock {
    /** How many times the time has been read. */
    var readings: nat
    /** Every sleep requested, in seconds, in order. */
    var sleeps: seq<int>
    /** The integer time of the n-th reading. */
    const time: nat -> int

    constructor (time: nat -> int)
      ensures readings == 0 && sleeps == [] && this.time == time
    {
      readings, sleeps := 0, [];
      this.time := time;
    }

    method Now() returns (t: int)
      modifies this`readings
      ensures readings == old(readings) + 1 && t == time(old(readings))
    {
      t := time(readings);
      readings := readings + 1;
    }

    method Sleep(seconds: int)
      modifies this`sleeps
      ensures sleeps == old(sleeps) + [seconds]
    {
      sleeps := sleeps + [seconds];
    }
  }

  /** The answers a script gives to a run of consecutive calls starting at position `n0`. */
  function Replies<Q, A>(reply: (nat, Q) -> Outcome<A>, n0: nat, reqs: seq<Q>): seq<Outcome<A>> {
    seq(|reqs|, j requires 0 <= j < |reqs| => reply(n0 + j, reqs[j]))
  }

  /**
   * The number of steps that return normally before the first one raises:
   * how far a chain of steps with no exception handler gets.
   */
  function FirstFailure<T>(os: seq<Outcome<T>>): (k: nat)
    ensures k <= |os|
    ensures forall j :: 0 <= j < k ==> os[j].Ok?
    ensures k < |os| ==> os[k].Fail?
  {
    if os == [] || os[0].Fail? then 0 else 1 + FirstFailure(os[1..])
  }

  /** The conditions in `FirstFailure`'s contract single out one position. */
  lemma FirstFailureIs<T>(os: seq<Outcome<T>>, k: nat)
    requires k <= |os|
    requires forall j :: 0 <= j < k ==> os[j].Ok?
    requires k < |os| ==> os[k].Fail?
    ensures FirstFailure(os) == k
  {
  }

  /** `n` copies of `x`. */
  function Repeat<T>(x: T, n: nat): seq<T> {
    seq(n, _ => x)
  }

  /** The sleeps of `n` rounds that end with `if delay_seconds: await asyncio.sleep(delay_seconds)`. */
  function Pauses(delaySeconds: int, n: nat): seq<int> {
    if delaySeconds != 0 then Repeat(delaySeconds, n) else []
  }

  /** One more round adds its sleep at the end, if there is one. */
  lemma PausesStep(delaySeconds: int, n: nat)
    ensures Pauses(delaySeconds, n + 1) == Pauses(delaySeconds, n) + (if delaySeconds != 0 then [delaySeconds] else [])
  {
    if delaySeconds != 0 {
      assert Repeat(delaySeconds, n + 1) == Repeat(delaySeconds, n) + [delaySeconds];
    }
  }

  /** The number of rounds `for _ in range(iterations)` runs. */
  function Rounds(iterations: int): nat {
    if iterations > 0 then iterations else 0
  }

  // ---------------------------------------------------------------------
  // A chain of awaited calls with no exception handler: call `reqs[j]` is
  // made, and only if it returns is `recs[j]` appended to a history.
  // ---------------------------------------------------------------------

  /**
   * The chain has reached step `j`: the first `j` calls were made and
   * returned, and their records were appended, starting from a history
   * `h0` and a call log `c0`.
   */
  ghost predicate Reached<Q, A, R>(reply: (nat, Q) -> Outcome<A>, reqs: seq<Q>, recs: seq<R>, j: nat,
                                   h0: seq<R>, c0: seq<Q>, h: seq<R>, c: seq<Q>)
  {
    && j <= |reqs| && j <= |recs|
    && (forall i :: 0 <= i < j ==> Replies(reply, |c0|, reqs)[i].Ok?)
    && h == h0 + recs[..j]
    && c == c0 + reqs[..j]
  }

  /**
   * The chain stopped at its first failing call: the records before it are
   * appended, every call up to and including it was made, and the error is
   * that call's.
   */
  ghost predicate Halted<Q, A, R>(reply: (nat, Q) -> Outcome<A>, reqs: seq<Q>, recs: seq<R>,
                                  h0: seq<R>, c0: seq<Q>, h: seq<R>, c: seq<Q>, e: string)
  {
    var os := Replies(reply, |c0|, reqs);
    var k := FirstFailure(os);
    && k < |reqs| && k <= |recs|
    && h == h0 + recs[..k]
    && c == c0 + reqs[..k + 1]
    && e == os[k].error
  }

  lemma ChainStart<Q, A, R>(reply: (nat, Q) -> Outcome<A>, reqs: seq<Q>, recs: seq<R>, h0: seq<R>, c0: seq<Q>)
    ensures Reached(reply, reqs, recs, 0, h0, c0, h0, c0)
  {
    assert h0 + recs[..0] == h0;
    assert c0 + reqs[..0] == c0;
  }

  /** Call `j` returned and its record was appended: step `j + 1` is reached. */
  lemma ChainStep<Q, A, R>(reply: (nat, Q) -> Outcome<A>, reqs: seq<Q>, recs: seq<R>, j: nat,
                           h0: seq<R>, c0: seq<Q>, h: seq<R>, c: seq<Q>, h': seq<R>, c': seq<Q>)
    requires j < |reqs| && j < |recs| && Reached(reply, reqs, recs, j, h0, c0, h, c)
    requires c' == c + [reqs[j]] && reply(|c|, reqs[j]).Ok? && h' == h + [recs[j]]
    ensures Reached(reply, reqs, recs, j + 1, h0, c0, h', c')
  {
    assert recs[..j + 1] == recs[..j] + [recs[j]];
    assert reqs[..j + 1] == reqs[..j] + [reqs[j]];
  }

  /** Call `j` raised: the chain halts there, with the history it had. */
  lemma ChainStop<Q, A, R>(reply: (nat, Q) -> Outcome<A>, reqs: seq<Q>, recs: seq<R>, j: nat,
                           h0: seq<R>, c0: seq<Q>, h: seq<R>, c: seq<Q>, c': seq<Q>)
    requires j < |reqs| && j <= |recs| && Reached(reply, reqs, recs, j, h0, c0, h, c)
    requires c' == c + [reqs[j]] && reply(|c|, reqs[j]).Fail?
    ensures FirstFailure(Replies(reply, |c0|, reqs)) == j
    ensures Halted(reply, reqs, recs, h0, c0, h, c', reply(|c|, reqs[j]).error)
  {
    FirstFailureIs(Replies(reply, |c0|, reqs), j);
    assert reqs[..j + 1] == reqs[..j] + [reqs[j]];
  }

  /** Call `j` was made: the chain either reaches step `j + 1` or halts there. */
  lemma ChainAdvance<Q, A, R>(reply: (nat, Q) -> Outcome<A>, reqs: seq<Q>, recs: seq<R>, j: nat,
                              h0: seq<R>, c0: seq<Q>, h: seq<R>, c: seq<Q>, c': seq<Q>, o: Outcome<A>)
    requires j < |reqs| && j < |recs| && Reached(reply, reqs, recs, j, h0, c0, h, c)
    requires c' == c + [reqs[j]] && o == reply(|c|, reqs[j])
    ensures o.Ok? ==> Reached(reply, reqs, recs, j + 1, h0, c0, h + [recs[j]], c')
    ensures o.Fail? ==> FirstFailure(Replies(reply, |c0|, reqs)) == j
    ensures o.Fail? ==> Halted(reply, reqs, recs, h0, c0, h, c', o.error)
  {
    if o.Ok? {
      ChainStep(reply, reqs, recs, j, h0, c0, h, c, h + [recs[j]], c');
    } else {
      ChainStop(reply, reqs, recs, j, h0, c0, h, c, c');
    }
  }

  /** Every call returned: all records are appended and every call was made. */
  lemma ChainDone<Q, A, R>(reply: (nat, Q) -> Outcome<A>, reqs: seq<Q>, recs: seq<R>,
                           h0: seq<R>, c0: seq<Q>, h: seq<R>, c: seq<Q>)
    requires |recs| == |reqs| && Reached(reply, reqs, recs, |reqs|, h0, c0, h, c)
    ensures FirstFailure(Replies(reply, |c0|, reqs)) == |reqs|
    ensures h == h0 + recs && c == c0 + reqs
  {
    FirstFailureIs(Replies(reply, |c0|, reqs), |reqs|);
    assert recs[..|recs|] == recs && reqs[..|reqs|] == reqs;
  }

  /** A halted chain's error is the answer of its first failing call. */
  lemma HaltedAnswer<Q, A, R>(reply: (nat, Q) -> Outcome<A>, reqs: seq<Q>, recs: seq<R>,
                              h0: seq<R>, c0: seq<Q>, h: seq<R>, c: seq<Q>, e: string)
    requires Halted(reply, reqs, recs, h0, c0, h, c, e)
    ensures var os := Replies(reply, |c0|, reqs);
      FirstFailure(os) < |os| && e == os[FirstFailure(os)].error
  {
  }
}
