/**
 * The pure decisions of `TestingLoopRunner` (testing_loop_runner.py): which
 * walked files count as sources, which stub a dispatcher answer yields, where
 * a source's test file goes, and the bookkeeping of `run_tests`. The
 * directory walk, the clock, the dispatcher and the pytest run are inputs.
 */
module TestingLoop {
  import opened Values
  import opened Oracles
  import opened Dispatch

  // ---------------------------------------------------------------------
  // The source-file filter and the directory walk (inspect_file_structure)
  // ---------------------------------------------------------------------

  /** A walked file name is a source file iff it ends in ".py" and does not start with "test_". */
  predicate IsSourceFile(name: string) {
    EndsWith(name, ".py") && !StartsWith(name, "test_")
  }

  /** Python's `posixpath` on `/`-separated paths: the position of the last separator, or -1. */
  function LastSlash(p: string): (i: int)
    ensures -1 <= i < |p|
    ensures i >= 0 ==> p[i] == '/'
    ensures forall k :: i < k < |p| ==> p[k] != '/'
  {
    if p == [] then -1 else if p[|p| - 1] == '/' then |p| - 1 else LastSlash(p[..|p| - 1])
  }

  /** `os.path.basename`: everything after the last separator. */
  function Basename(p: string): string {
    p[LastSlash(p) + 1..]
  }

  lemma BasenameHasNoSlash(p: string)
    ensures '/' !in Basename(p)
  {
    var b := Basename(p);
    forall k | 0 <= k < |b|
      ensures b[k] != '/'
    {
      assert b[k] == p[LastSlash(p) + 1 + k];
    }
  }

  predicate AllSlashes(s: string) {
    forall k :: 0 <= k < |s| ==> s[k] == '/'
  }

  /** `s.rstrip("/")`. */
  function RStripSlashes(s: string): (r: string)
    ensures r <= s && AllSlashes(s[|r|..])
    ensures r == [] || r[|r| - 1] != '/'
  {
    if s != [] && s[|s| - 1] == '/' then RStripSlashes(s[..|s| - 1]) else s
  }

  /**
   * `os.path.dirname`: everything up to the last separator, with trailing
   * separators removed unless it is nothing but separators.
   */
  function Dirname(p: string): string {
    var head := p[..LastSlash(p) + 1];
    if head != [] && !AllSlashes(head) then RStripSlashes(head) else head
  }

  /** `os.path.join(a, b)`: an absolute `b` wins; otherwise one separator between them. */
  function PathJoin(a: string, b: string): string {
    if StartsWith(b, "/") then b
    else if a == [] || EndsWith(a, "/") then a + b
    else a + "/" + b
  }

  /** `write_test_files`' target: `test_<basename>` in the source's directory. */
  function TestPath(source: string): string {
    PathJoin(Dirname(source), "test_" + Basename(source))
  }

  /** Appending a segment without separators leaves the last separator where it was. */
  lemma {:induction false} LastSlashAppend(x: string, t: string)
    requires '/' !in t
    ensures LastSlash(x + t) == LastSlash(x)
  {
    if t != [] {
      var t' := t[..|t| - 1];
      assert (x + t)[..|x + t| - 1] == x + t';
      LastSlashAppend(x, t');
    } else {
      assert x + t == x;
    }
  }

  /** A directory `d` joined with a plain name: the name is the basename, `d` the dirname. */
  lemma JoinSplits(d: string, t: string)
    requires t != [] && '/' !in t
    requires d == [] || AllSlashes(d) || d[|d| - 1] != '/'
    ensures Basename(PathJoin(d, t)) == t
    ensures Dirname(PathJoin(d, t)) == d
  {
    var p := PathJoin(d, t);
    assert !StartsWith(t, "/") by {
      assert t[0] != '/';
    }
    if d == [] {
      assert p == [] + t;
      LastSlashAppend([], t);
    } else if d[|d| - 1] == '/' {
      assert EndsWith(d, "/") by {
        assert d[|d| - 1..] == "/";
      }
      assert p == d + t;
      LastSlashAppend(d, t);
      assert LastSlash(d) == |d| - 1;
      assert p[..LastSlash(p) + 1] == d;
    } else {
      var x := d + "/";
      assert !EndsWith(d, "/") by {
        assert d[|d| - 1..][0] == d[|d| - 1];
      }
      assert p == x + t;
      LastSlashAppend(x, t);
      assert LastSlash(x) == |d|;
      assert p[..LastSlash(p) + 1] == x;
      assert !AllSlashes(x) by {
        assert x[|d| - 1] != '/';
      }
      assert RStripSlashes(x) == RStripSlashes(d);
      assert RStripSlashes(d) == d;
    }
  }

  /** Dirnames are empty, all separators, or end in something else. */
  lemma DirnameShape(p: string)
    ensures var d := Dirname(p); d == [] || AllSlashes(d) || d[|d| - 1] != '/'
  {
  }

  /**
   * The test file sits in the source file's directory and is named
   * `test_<basename>`, so a later walk never takes it for a source file.
   */
  lemma TestPathShape(source: string)
    ensures Basename(TestPath(source)) == "test_" + Basename(source)
    ensures Dirname(TestPath(source)) == Dirname(source)
    ensures !IsSourceFile(Basename(TestPath(source)))
  {
    DirnameShape(source);
    BasenameHasNoSlash(source);
    TestNameHasNoSlash(Basename(source));
    JoinSplits(Dirname(source), "test_" + Basename(source));
    TestNameIsNotSource(Basename(source));
  }

  lemma TestNameHasNoSlash(name: string)
    requires '/' !in name
    ensures '/' !in "test_" + name
  {
    var t := "test_" + name;
    forall k | 0 <= k < |t|
      ensures t[k] != '/'
    {
      if k >= 5 {
        assert t[k] == name[k - 5];
      }
    }
  }

  lemma TestNameIsNotSource(name: string)
    ensures !IsSourceFile("test_" + name)
  {
    assert StartsWith("test_" + name, "test_");
  }

  /** A source `dir/name` gets `dir/test_name` ("src/module.py" gets "src/test_module.py"). */
  lemma TestPathInDirectory(d: string, name: string)
    requires '/' !in name && d != [] && d[|d| - 1] != '/'
    ensures TestPath(d + "/" + name) == d + "/" + "test_" + name
  {
    var x := d + "/";
    var p := x + name;
    LastSlashAppend(x, name);
    assert LastSlash(x) == |d|;
    assert Basename(p) == name;
    assert p[..|d| + 1] == x;
    assert !AllSlashes(x) by {
      assert x[|d| - 1] != '/';
    }
    assert RStripSlashes(x) == RStripSlashes(d) == d;
    assert !EndsWith(d, "/") by {
      assert d[|d| - 1..][0] == d[|d| - 1];
    }
    assert !StartsWith("test_" + name, "/") by {
      assert ("test_" + name)[0] == 't';
    }
  }

  /** One step of `os.walk`: a directory and the names of the files directly in it. */
  datatype WalkEntry = WalkEntry(root: string, files: seq<string>)

  /** The joined paths of the source files in one directory, in listing order. */
  function SourcesIn(root: string, files: seq<string>): seq<string> {
    if files == [] then []
    else
      var f := files[|files| - 1];
      SourcesIn(root, files[..|files| - 1]) + (if IsSourceFile(f) then [PathJoin(root, f)] else [])
  }

  /** The joined paths of the source files of a whole walk, in walk order. */
  function SourceFiles(walk: seq<WalkEntry>): seq<string> {
    if walk == [] then []
    else
      var e := walk[|walk| - 1];
      SourceFiles(walk[..|walk| - 1]) + SourcesIn(e.root, e.files)
  }

  /** Every source file of a directory is listed under its joined path. */
  lemma {:induction false} SourcesInComplete(root: string, files: seq<string>, j: nat)
    requires j < |files| && IsSourceFile(files[j])
    ensures PathJoin(root, files[j]) in SourcesIn(root, files)
  {
    var init := files[..|files| - 1];
    if j < |init| {
      assert init[j] == files[j];
      SourcesInComplete(root, init, j);
    }
  }

  /** Nothing else is listed for a directory. */
  lemma {:induction false} SourcesInSound(root: string, files: seq<string>, x: string)
    requires x in SourcesIn(root, files)
    ensures exists j :: 0 <= j < |files| && IsSourceFile(files[j]) && x == PathJoin(root, files[j])
  {
    var init := files[..|files| - 1];
    if x in SourcesIn(root, init) {
      SourcesInSound(root, init, x);
      var j :| 0 <= j < |init| && IsSourceFile(init[j]) && x == PathJoin(root, init[j]);
      assert files[j] == init[j];
    } else {
      assert IsSourceFile(files[|files| - 1]) && x == PathJoin(root, files[|files| - 1]);
    }
  }

  /**
   * `inspect_file_structure` lists every file of the walk whose name passes
   * the filter, under its joined path.
   */
  lemma {:induction false} SourceFilesComplete(walk: seq<WalkEntry>, i: nat, j: nat)
    requires i < |walk| && j < |walk[i].files| && IsSourceFile(walk[i].files[j])
    ensures PathJoin(walk[i].root, walk[i].files[j]) in SourceFiles(walk)
  {
    var init := walk[..|walk| - 1];
    if i < |init| {
      assert init[i] == walk[i];
      SourceFilesComplete(init, i, j);
    } else {
      SourcesInComplete(walk[i].root, walk[i].files, j);
    }
  }

  /** `inspect_file_structure` lists nothing but the joined paths of files that pass the filter. */
  lemma {:induction false} SourceFilesSound(walk: seq<WalkEntry>, x: string)
    requires x in SourceFiles(walk)
    ensures exists i, j :: (0 <= i < |walk| && 0 <= j < |walk[i].files| && IsSourceFile(walk[i].files[j])
      && x == PathJoin(walk[i].root, walk[i].files[j]))
  {
    var init := walk[..|walk| - 1];
    var e := walk[|walk| - 1];
    if x in SourceFiles(init) {
      SourceFilesSound(init, x);
      var i, j :| 0 <= i < |init| && 0 <= j < |init[i].files| && IsSourceFile(init[i].files[j])
        && x == PathJoin(init[i].root, init[i].files[j]);
      assert walk[i] == init[i];
    } else {
      SourcesInSound(e.root, e.files, x);
      var j :| 0 <= j < |e.files| && IsSourceFile(e.files[j]) && x == PathJoin(e.root, e.files[j]);
      assert walk[|walk| - 1] == e;
    }
  }

  /** A joined source file name ends in ".py". */
  lemma JoinedSourceIsPython(root: string, f: string)
    requires IsSourceFile(f)
    ensures EndsWith(PathJoin(root, f), ".py")
  {
    var p := PathJoin(root, f);
    assert p[|p| - |f|..] == f;
    assert p[|p| - 3..] == f[|f| - 3..];
  }

  /** As the source's own test checks: every listed path ends in ".py". */
  lemma SourceFilesArePython(walk: seq<WalkEntry>, x: string)
    requires x in SourceFiles(walk)
    ensures EndsWith(x, ".py")
  {
    SourceFilesSound(walk, x);
    var i, j :| 0 <= i < |walk| && 0 <= j < |walk[i].files| && IsSourceFile(walk[i].files[j])
      && x == PathJoin(walk[i].root, walk[i].files[j]);
    JoinedSourceIsPython(walk[i].root, walk[i].files[j]);
  }

  // ---------------------------------------------------------------------
  // From a dispatcher answer to a test stub (generate_test_stubs)
  // ---------------------------------------------------------------------

  /** The stub written when the answer holds no insights. */
  const Placeholder := "# Test generation failed or returned empty."

  /** The one-character strings of a `str`, as iterating over it yields them. */
  function Chars(s: string): seq<string> {
    seq(|s|, i requires 0 <= i < |s| => [s[i]])
  }

  /**
   * `"\n".join(v)` for the insights value: a list of strings is joined, a
   * list holding anything else raises, a string is joined character by
   * character, and a value that is not iterable raises.
   */
  function JoinLines(v: Value): (r: Outcome<string>)
    ensures v.List? ==> (r.Ok? <==> forall i :: 0 <= i < |v.items| ==> v.items[i].Str?)
    ensures (v.Null? || v.Bool? || v.Int? || v.Float?) ==> r.Fail?
  {
    match v
    case List(items) =>
      (match StringsOf(items)
       case Some(lines) => Ok(Join(lines, "\n"))
       case None => Fail("TypeError: sequence item: expected str instance"))
    case Str(s) => Ok(Join(Chars(s), "\n"))
    case Dict(_) => Fail("TypeError: joining the keys of a dict is not modelled")
    case _ => Fail("TypeError: can only join an iterable")
  }

  /**
   * `response.get('synthesis', {}).get('key_insights', [])`, then the stub:
   * the insights joined by newlines when they are truthy, the placeholder
   * when they are not. A response or synthesis that is not a dict raises.
   */
  function StubOf(response: Value): Outcome<string> {
    var synthesis :- Get(response, "synthesis", Dict(map[]));
    var testCode :- Get(synthesis, "key_insights", List([]));
    if !Truthy(testCode) then Ok(Placeholder) else JoinLines(testCode)
  }

  /** An answer of the shape the source expects. */
  function InsightsAnswer(lines: seq<string>): Value {
    Dict(map["synthesis" := Dict(map["key_insights" := StrList(lines)])])
  }

  /**
   * Any answer whose synthesis holds a non-empty list of insight strings
   * yields those lines joined by newlines, whatever other keys it carries.
   */
  lemma StubOfInsights(response: Value, lines: seq<string>)
    requires response.Dict? && "synthesis" in response.entries
    requires response.entries["synthesis"].Dict?
    requires "key_insights" in response.entries["synthesis"].entries
    requires response.entries["synthesis"].entries["key_insights"] == StrList(lines)
    requires lines != []
    ensures StubOf(response) == Ok(Join(lines, "\n"))
  {
    StringsOfStrList(lines);
    assert Truthy(StrList(lines));
  }

  /**
   * The joined stub keeps its lines: it holds each of them, and splits back
   * into them when none holds a newline itself.
   */
  lemma StubKeepsLines(lines: seq<string>)
    requires lines != []
    ensures forall i :: 0 <= i < |lines| ==> Contains(Join(lines, "\n"), lines[i])
    ensures (forall i :: 0 <= i < |lines| ==> '\n' !in lines[i]) ==> Split(Join(lines, "\n"), '\n') == lines
  {
    forall i | 0 <= i < |lines|
      ensures Contains(Join(lines, "\n"), lines[i])
    {
      JoinContains(lines, "\n", i);
    }
    if forall i :: 0 <= i < |lines| ==> '\n' !in lines[i] {
      SplitJoin(lines, '\n');
    }
  }

  /**
   * A dict answer without a synthesis, a synthesis dict without insights, or
   * insights that are empty or falsy all give the placeholder.
   */
  lemma StubOfPlaceholder(response: Value)
    requires response.Dict?
    requires "synthesis" !in response.entries
      || (response.entries["synthesis"].Dict?
          && ("key_insights" !in response.entries["synthesis"].entries
              || !Truthy(response.entries["synthesis"].entries["key_insights"])))
    ensures StubOf(response) == Ok(Placeholder)
  {
  }

  /** An answer that is not a dict, or whose synthesis is present but not a dict, raises. */
  lemma StubOfRaises(response: Value)
    requires !response.Dict? || ("synthesis" in response.entries && !response.entries["synthesis"].Dict?)
    ensures StubOf(response).Fail?
  {
  }

  /** The outcome of one file's step: the dispatcher's error, or the stub its answer yields. */
  function StubStep(o: Outcome<Value>): Outcome<string> {
    var response :- o;
    StubOf(response)
  }

  /** The mode the source passes as context with every stub request. */
  function TestGenerationContext(): Value {
    Dict(map["mode" := Str("test_generation")])
  }

  /** The request for one source file, made at integer time `t`. */
  function StubRequest(file: string, t: int, agents: seq<string>): Request {
    Request("testgen_" + IntToString(t), "orchestra",
            "Generate pytest test stubs for the Python source file: " + file + ".",
            agents, Some(TestGenerationContext()))
  }

  /**
   * Every stub request is stamped "testgen_" followed by the decimal time,
   * uses the "orchestra" paradigm and the test-generation context, and names
   * its file in its task.
   */
  lemma StubRequestShape(file: string, t: int, agents: seq<string>)
    ensures var q := StubRequest(file, t, agents);
      && StartsWith(q.sessionId, "testgen_") && q.sessionId[|"testgen_"|..] == IntToString(t)
      && q.paradigm == "orchestra" && q.agents == agents
      && q.context == Some(Dict(map["mode" := Str("test_generation")]))
      && Contains(q.task, file)
  {
    var q := StubRequest(file, t, agents);
    var head := "Generate pytest test stubs for the Python source file: ";
    assert q.task[|head|..|head| + |file|] == file;
    assert OccursAt(file, q.task, |head|);
  }

  /** The requests for the files in order, the i-th stamped with the clock's reading `r0 + i`. */
  function StubRequests(files: seq<string>, time: nat -> int, r0: nat, agents: seq<string>): seq<Request> {
    seq(|files|, i requires 0 <= i < |files| => StubRequest(files[i], time(r0 + i), agents))
  }

  /** A dispatcher script seen through one file's step: its error, or the stub its answer yields. */
  function StubReply(reply: (nat, Request) -> Outcome<Value>): (nat, Request) -> Outcome<string> {
    (n: nat, q: Request) => StubStep(reply(n, q))
  }

  /** The script seen through the step answers a call with the step applied to the dispatcher's answer. */
  lemma StubReplyAt(reply: (nat, Request) -> Outcome<Value>, n: nat, q: Request)
    ensures StubReply(reply)(n, q) == StubStep(reply(n, q))
  {
  }

  /** Each file with the stub its step yields; a failing step's slot is never used. */
  function StubPairs(files: seq<string>, answers: seq<Outcome<string>>): seq<(string, string)>
    requires |answers| == |files|
  {
    seq(|files|, i requires 0 <= i < |files| =>
      (files[i], if answers[i].Ok? then answers[i].value else Placeholder))
  }

  /** A call made at position `|c0| + i` that returns gives the record of file `i`. */
  lemma StubRecordAt(reply: (nat, Request) -> Outcome<string>, files: seq<string>, c0: seq<Request>,
                     reqs: seq<Request>, recs: seq<(string, string)>, n: nat, i: nat, r: Outcome<string>)
    requires |reqs| == |files| && i < |files|
    requires recs == StubPairs(files, Replies(reply, |c0|, reqs))
    requires n == |c0| + i && r == reply(n, reqs[i])
    ensures r.Ok? ==> recs[i] == (files[i], r.value)
  {
  }

  /**
   * File `i`'s step, awaited at its place in the run: if it returns, the run
   * advances with that file's stub; if it raises, the run halts there.
   */
  lemma StubAdvance(reply: (nat, Request) -> Outcome<Value>, files: seq<string>, i: nat, c0: seq<Request>,
                    reqs: seq<Request>, recs: seq<(string, string)>, pairs: seq<(string, string)>,
                    c: seq<Request>, c': seq<Request>, r: Outcome<string>)
    requires |reqs| == |files| && i < |files|
    requires recs == StubPairs(files, Replies(StubReply(reply), |c0|, reqs))
    requires Reached(StubReply(reply), reqs, recs, i, [], c0, pairs, c)
    requires c' == c + [reqs[i]] && r == StubStep(reply(|c|, reqs[i]))
    ensures r.Ok? ==> && (files[i], r.value) == recs[i]
                      && Reached(StubReply(reply), reqs, recs, i + 1, [], c0, pairs + [recs[i]], c')
    ensures r.Fail? ==> && FirstFailure(Replies(StubReply(reply), |c0|, reqs)) == i
                        && Halted(StubReply(reply), reqs, recs, [], c0, pairs, c', r.error)
  {
    StubReplyAt(reply, |c|, reqs[i]);
    ChainAdvance(StubReply(reply), reqs, recs, i, [], c0, pairs, c, c', r);
    StubRecordAt(StubReply(reply), files, c0, reqs, recs, |c|, i, r);
  }

  /** The dict built by assigning the pairs' keys in order: a later assignment wins. */
  function ToMap(ps: seq<(string, string)>): map<string, string> {
    if ps == [] then map[] else
      var last := ps[|ps| - 1];
      ToMap(ps[..|ps| - 1])[last.0 := last.1]
  }

  /** One more assignment updates the dict at its key. */
  lemma ToMapSnoc(ps: seq<(string, string)>, k: string, v: string)
    ensures ToMap(ps + [(k, v)]) == ToMap(ps)[k := v]
  {
    assert (ps + [(k, v)])[..|ps|] == ps;
  }

  /** The keys are exactly the pairs' keys, and each maps to its last assignment. */
  lemma {:induction false} ToMapHolds(ps: seq<(string, string)>)
    ensures forall k :: k in ToMap(ps) <==> exists i :: 0 <= i < |ps| && ps[i].0 == k
    ensures forall i :: 0 <= i < |ps| && (forall j :: i < j < |ps| ==> ps[j].0 != ps[i].0) ==>
      ps[i].0 in ToMap(ps) && ToMap(ps)[ps[i].0] == ps[i].1
  {
    if ps != [] {
      var init := ps[..|ps| - 1];
      var last := ps[|ps| - 1];
      ToMapHolds(init);
      forall k
        ensures k in ToMap(ps) <==> exists i :: 0 <= i < |ps| && ps[i].0 == k
      {
        if k in ToMap(init) {
          var i :| 0 <= i < |init| && init[i].0 == k;
          assert ps[i] == init[i];
        }
        if exists i :: 0 <= i < |ps| && ps[i].0 == k {
          var i :| 0 <= i < |ps| && ps[i].0 == k;
          if i < |init| {
            assert init[i] == ps[i];
          }
        }
      }
      forall i | 0 <= i < |ps| && (forall j :: i < j < |ps| ==> ps[j].0 != ps[i].0)
        ensures ps[i].0 in ToMap(ps) && ToMap(ps)[ps[i].0] == ps[i].1
      {
        if i < |init| {
          assert init[i] == ps[i];
          assert ps[|ps| - 1].0 != ps[i].0;
          forall j | i < j < |init|
            ensures init[j].0 != init[i].0
          {
            assert init[j] == ps[j];
          }
        }
      }
    }
  }

  /**
   * The stubs `generate_test_stubs` returns when every step returns: one key
   * per source file, each mapped to the stub of its last occurrence.
   */
  lemma StubMapHolds(files: seq<string>, answers: seq<Outcome<string>>)
    requires |answers| == |files|
    ensures forall f :: f in ToMap(StubPairs(files, answers)) <==> f in files
    ensures forall i :: 0 <= i < |files| && answers[i].Ok? && (forall j :: i < j < |files| ==> files[j] != files[i]) ==>
      ToMap(StubPairs(files, answers))[files[i]] == answers[i].value
  {
    var ps := StubPairs(files, answers);
    ToMapHolds(ps);
    forall f
      ensures f in ToMap(ps) <==> f in files
    {
      if f in files {
        var i :| 0 <= i < |files| && files[i] == f;
        assert ps[i].0 == f;
      }
    }
    forall i | 0 <= i < |files| && answers[i].Ok? && (forall j :: i < j < |files| ==> files[j] != files[i])
      ensures ToMap(ps)[files[i]] == answers[i].value
    {
      assert forall j :: i < j < |ps| ==> ps[j].0 != ps[i].0;
    }
  }

  /**
   * What the stub chain's two endings mean for the caller: a failure carries
   * the error of the first failing call, and a completed chain's dict holds
   * every source file.
   */
  lemma StubsOutcome(reply: (nat, Request) -> Outcome<string>, files: seq<string>, reqs: seq<Request>,
                     c0: seq<Request>, pairs: seq<(string, string)>, c: seq<Request>, r: Outcome<map<string, string>>)
    requires |reqs| == |files|
    requires var recs := StubPairs(files, Replies(reply, |c0|, reqs));
      && (r.Ok? ==> Reached(reply, reqs, recs, |files|, [], c0, pairs, c) && r.value == ToMap(pairs))
      && (r.Fail? ==> Halted(reply, reqs, recs, [], c0, pairs, c, r.error))
    ensures var answers := Replies(reply, |c0|, reqs);
      && (r.Fail? ==> FirstFailure(answers) < |reqs| && r.error == answers[FirstFailure(answers)].error)
      && (r.Ok? ==> FirstFailure(answers) == |reqs| && forall f :: f in r.value <==> f in files)
  {
    var answers := Replies(reply, |c0|, reqs);
    var recs := StubPairs(files, answers);
    if r.Fail? {
      HaltedAnswer(reply, reqs, recs, [], c0, pairs, c, r.error);
    } else {
      ChainDone(reply, reqs, recs, [], c0, pairs, c);
      assert [] + recs == recs;
      StubMapHolds(files, answers);
    }
  }

  // ---------------------------------------------------------------------
  // run_tests
  // ---------------------------------------------------------------------

  /** How the `pytest` subprocess ended under `check=True`. */
  datatype PytestRun =
    | Completed(stdout: string)                      // exit status 0
    | CalledProcessError(output: string, message: string) // non-zero exit; `str(e)` is the message
    | Raised(error: string)                          // anything else, e.g. pytest not installed

  /**
   * The dictionary `run_tests` appends and returns, given how pytest ended and
   * what reading the report file gave; a failure is an exception that escapes.
   */
  function TestRecord(run: PytestRun, report: Outcome<string>): (r: Outcome<Value>)
    ensures r.Ok? <==> run.CalledProcessError? || (run.Completed? && report.Ok?)
    ensures run.Raised? ==> r == Fail(run.error)
    ensures run.Completed? && report.Fail? ==> r == Fail(report.error)
    ensures r.Ok? ==>
      && r.value.Dict? && "output" in r.value.entries && "success" in r.value.entries
      && r.value.entries["success"] == Bool(run.Completed?)
    ensures r.Ok? && run.Completed? ==>
      && r.value.entries.Keys == {"success", "output", "report"}
      && r.value.entries["output"] == Str(run.stdout) && r.value.entries["report"] == Str(report.value)
    ensures r.Ok? && run.CalledProcessError? ==>
      && r.value.entries.Keys == {"success", "output", "error"}
      && r.value.entries["output"] == Str(run.output) && r.value.entries["error"] == Str(run.message)
  {
    match run
    case Completed(stdout) =>
      var text :- report;
      Ok(Dict(map["success" := Bool(true), "output" := Str(stdout), "report" := Str(text)]))
    case CalledProcessError(output, message) =>
      Ok(Dict(map["success" := Bool(false), "output" := Str(output), "error" := Str(message)]))
    case Raised(error) => Fail(error)
  }

  /**
   * The stubs of the sources in `done` were written from `before` to
   * `after`, each to its path: `writer` maps every written path to the source
   * whose stub it holds, every source's path is written, and every other
   * file is as it was.
   */
  ghost predicate Wrote(stubs: map<string, string>, done: set<string>, path: string -> string,
                        before: map<string, string>, after: map<string, string>, writer: map<string, string>)
  {
    && (forall s :: s in done ==> path(s) in writer)
    && (forall p :: p in writer ==>
          && writer[p] in done && writer[p] in stubs && path(writer[p]) == p
          && p in after && after[p] == stubs[writer[p]])
    && (forall p :: p in after ==> p in before || p in writer)
    && (forall p :: p in before && p !in writer ==> p in after && after[p] == before[p])
  }

  /** Writing one more source's stub to its path keeps the account. */
  lemma WroteStep(stubs: map<string, string>, done: set<string>, path: string -> string,
                  before: map<string, string>, after: map<string, string>, writer: map<string, string>, s: string)
    requires s in stubs && Wrote(stubs, done, path, before, after, writer)
    ensures Wrote(stubs, done + {s}, path, before, after[path(s) := stubs[s]], writer[path(s) := s])
  {
  }

  /**
   * When no two sources share a path, each source's path holds its own
   * stub; a path outside every source's keeps its old content.
   */
  lemma WroteDistinct(stubs: map<string, string>, path: string -> string,
                      before: map<string, string>, after: map<string, string>, writer: map<string, string>)
    requires Wrote(stubs, stubs.Keys, path, before, after, writer)
    requires forall s, s' :: s in stubs && s' in stubs && path(s) == path(s') ==> s == s'
    ensures forall s :: s in stubs ==> path(s) in after && after[path(s)] == stubs[s]
    ensures forall p :: p in before && (forall s :: s in stubs ==> path(s) != p) ==> p in after && after[p] == before[p]
  {
    forall s | s in stubs
      ensures path(s) in after && after[path(s)] == stubs[s]
    {
      assert path(s) in writer;
      assert path(writer[path(s)]) == path(s);
    }
  }

  /** Every one of the sources has a file at its test path. */
  ghost predicate HasTestFiles(sources: seq<string>, contents: map<string, string>) {
    forall f :: f in sources ==> TestPath(f) in contents
  }

  /** Writing the stubs of every key gives each of those sources its test file. */
  lemma WroteHasTestFiles(stubs: map<string, string>, sources: seq<string>, after: map<string, string>,
                          writer: map<string, string>)
    requires forall f :: f in sources ==> f in stubs
    requires exists before :: Wrote(stubs, stubs.Keys, TestPath, before, after, writer)
    ensures HasTestFiles(sources, after)
  {
    var before :| Wrote(stubs, stubs.Keys, TestPath, before, after, writer);
    forall f | f in sources
      ensures TestPath(f) in after
    {
      var path: string -> string := TestPath;
      assert path(f) in writer;
      assert path(writer[path(f)]) == path(f);
    }
  }

  /** The files of the project directory, by path. */
  class Disk {
    var contents: map<string, string>

    constructor (contents: map<string, string>)
      ensures this.contents == contents
    {
      this.contents := contents;
    }
  }

  class TestingLoopRunner {
    const dispatcher: Oracle<Request, Value>
    const clock: Clock
    const disk: Disk
    const agents: seq<string>
    const projectRoot: string
    var testResults: seq<Value>

    constructor (dispatcher: Oracle<Request, Value>, clock: Clock, disk: Disk, agents: seq<string>, projectRoot: string)
      ensures this.dispatcher == dispatcher && this.clock == clock && this.disk == disk
      ensures this.agents == agents && this.projectRoot == projectRoot
      ensures testResults == []
    {
      this.dispatcher := dispatcher;
      this.clock := clock;
      this.disk := disk;
      this.agents := agents;
      this.projectRoot := projectRoot;
      testResults := [];
    }

    /** `inspect_file_structure` over the walk of the project root: its source files in walk order. */
    method InspectFileStructure(walk: seq<WalkEntry>) returns (sourceFiles: seq<string>)
      ensures sourceFiles == SourceFiles(walk)
    {
      sourceFiles := [];
      var i := 0;
      while i < |walk|
        invariant 0 <= i <= |walk|
        invariant sourceFiles == SourceFiles(walk[..i])
      {
        var root, files := walk[i].root, walk[i].files;
        var j := 0;
        while j < |files|
          invariant 0 <= j <= |files|
          invariant sourceFiles == SourceFiles(walk[..i]) + SourcesIn(root, files[..j])
        {
          var file := files[j];
          if EndsWith(file, ".py") && !StartsWith(file, "test_") {
            sourceFiles := sourceFiles + [PathJoin(root, file)];
          }
          assert files[..j + 1][..j] == files[..j];
          j := j + 1;
        }
        assert files[..j] == files;
        assert walk[..i + 1][..i] == walk[..i];
        i := i + 1;
      }
      assert walk[..i] == walk;
    }

    /**
     * One file's step of `generate_test_stubs`: read the clock, await the
     * dispatcher with the file's request, derive the stub. Stated as one step
     * `i` of the chain over all the files' requests.
     */
    method GenerateOne(sourceFile: string, ghost sourceFiles: seq<string>, ghost i: nat, ghost r0: nat,
                       ghost c0: seq<Request>, ghost reqs: seq<Request>, ghost recs: seq<(string, string)>,
                       ghost pairs: seq<(string, string)>) returns (r: Outcome<string>)
      requires i < |sourceFiles| && sourceFile == sourceFiles[i] && clock.readings == r0 + i
      requires reqs == StubRequests(sourceFiles, clock.time, r0, agents)
      requires recs == StubPairs(sourceFiles, Replies(StubReply(dispatcher.reply), |c0|, reqs))
      requires Reached(StubReply(dispatcher.reply), reqs, recs, i, [], c0, pairs, dispatcher.calls)
      modifies dispatcher`calls, clock`readings
      ensures clock.readings == old(clock.readings) + 1
      ensures r.Ok? ==> && (sourceFile, r.value) == recs[i]
                        && Reached(StubReply(dispatcher.reply), reqs, recs, i + 1, [], c0, pairs + [recs[i]], dispatcher.calls)
      ensures r.Fail? ==> && FirstFailure(Replies(StubReply(dispatcher.reply), |c0|, reqs)) == i
                          && Halted(StubReply(dispatcher.reply), reqs, recs, [], c0, pairs, dispatcher.calls, r.error)
    {
      ghost var c := dispatcher.calls;
      ghost var n := clock.readings;
      var t := clock.Now();
      var q := StubRequest(sourceFile, t, agents);
      assert reqs[i] == StubRequest(sourceFiles[i], clock.time(n), agents);
      var o := dispatcher.Call(q);
      r := StubStep(o);
      StubAdvance(dispatcher.reply, sourceFiles, i, c0, reqs, recs, pairs, c, dispatcher.calls, r);
    }

    /**
     * `generate_test_stubs(source_files)`: for each file in order, read the
     * clock, await the dispatcher with the file's request and derive the
     * stub, with nothing caught. Either every step returns and the result
     * maps each file to its stub (a repeated file keeps its last one), or the
     * run halts at the first step that raises, with that step's error. The
     * ghost `pairs` are the (file, stub) assignments made.
     */
    method GenerateTestStubs(sourceFiles: seq<string>) returns (r: Outcome<map<string, string>>, ghost pairs: seq<(string, string)>)
      modifies dispatcher`calls, clock`readings
      ensures var reqs := StubRequests(sourceFiles, clock.time, old(clock.readings), agents);
        var answers := Replies(StubReply(dispatcher.reply), |old(dispatcher.calls)|, reqs);
        var recs := StubPairs(sourceFiles, answers);
        && (r.Ok? ==> && Reached(StubReply(dispatcher.reply), reqs, recs, |sourceFiles|, [], old(dispatcher.calls),
                                 pairs, dispatcher.calls)
                      && r.value == ToMap(pairs)
                      && clock.readings == old(clock.readings) + |sourceFiles|)
        && (r.Fail? ==> && Halted(StubReply(dispatcher.reply), reqs, recs, [], old(dispatcher.calls),
                                  pairs, dispatcher.calls, r.error)
                        && clock.readings == old(clock.readings) + FirstFailure(answers) + 1)
    {
      ghost var c0, r0 := dispatcher.calls, clock.readings;
      ghost var reqs := StubRequests(sourceFiles, clock.time, r0, agents);
      ghost var recs := StubPairs(sourceFiles, Replies(StubReply(dispatcher.reply), |c0|, reqs));
      r, pairs := GenerateEach(sourceFiles, r0, c0, reqs, recs);
    }

    /** The loop of `generate_test_stubs`, over the requests and records fixed at its start. */
    method GenerateEach(sourceFiles: seq<string>, ghost r0: nat, ghost c0: seq<Request>, ghost reqs: seq<Request>,
                        ghost recs: seq<(string, string)>) returns (r: Outcome<map<string, string>>, ghost pairs: seq<(string, string)>)
      requires clock.readings == r0 && dispatcher.calls == c0
      requires reqs == StubRequests(sourceFiles, clock.time, r0, agents)
      requires recs == StubPairs(sourceFiles, Replies(StubReply(dispatcher.reply), |c0|, reqs))
      modifies dispatcher`calls, clock`readings
      ensures r.Ok? ==> && Reached(StubReply(dispatcher.reply), reqs, recs, |sourceFiles|, [], c0, pairs, dispatcher.calls)
                        && r.value == ToMap(pairs)
                        && clock.readings == r0 + |sourceFiles|
      ensures r.Fail? ==> && Halted(StubReply(dispatcher.reply), reqs, recs, [], c0, pairs, dispatcher.calls, r.error)
                          && clock.readings == r0 + FirstFailure(Replies(StubReply(dispatcher.reply), |c0|, reqs)) + 1
    {
      pairs := [];
      ChainStart(StubReply(dispatcher.reply), reqs, recs, [], c0);
      var testStubs := map[];
      var i := 0;
      while i < |sourceFiles|
        invariant 0 <= i <= |sourceFiles|
        invariant Reached(StubReply(dispatcher.reply), reqs, recs, i, [], c0, pairs, dispatcher.calls)
        invariant clock.readings == r0 + i
        invariant testStubs == ToMap(pairs)
      {
        var sourceFile := sourceFiles[i];
        var stub := GenerateOne(sourceFile, sourceFiles, i, r0, c0, reqs, recs, pairs);
        if stub.Fail? {
          return Fail(stub.error), pairs;
        }
        ToMapSnoc(pairs, sourceFile, stub.value);
        testStubs := testStubs[sourceFile := stub.value];
        pairs := pairs + [(sourceFile, stub.value)];
        i := i + 1;
      }
      r := Ok(testStubs);
    }

    /**
     * `write_test_files(test_stubs)`: each stub is written to its source's
     * test path, and no other file changes; the ghost `writer` names, for
     * every written path, the source whose stub it ends up holding.
     */
    method WriteTestFiles(testStubs: map<string, string>) returns (ghost writer: map<string, string>)
      modifies disk`contents
      ensures Wrote(testStubs, testStubs.Keys, TestPath, old(disk.contents), disk.contents, writer)
    {
      ghost var before := disk.contents;
      var remaining := testStubs.Keys;
      ghost var done: set<string> := {};
      writer := map[];
      while remaining != {}
        invariant remaining + done == testStubs.Keys && remaining !! done
        invariant Wrote(testStubs, done, TestPath, before, disk.contents, writer)
      {
        var sourceFile :| sourceFile in remaining;
        var testFile := TestPath(sourceFile);
        WroteStep(testStubs, done, TestPath, before, disk.contents, writer, sourceFile);
        disk.contents := disk.contents[testFile := testStubs[sourceFile]];
        writer := writer[testFile := sourceFile];
        remaining := remaining - {sourceFile};
        done := done + {sourceFile};
      }
    }

    /**
     * `run_tests()`: the record of the pytest run is appended to the results
     * and returned; an exception other than a failing exit escapes with
     * nothing appended.
     */
    method RunTests(run: PytestRun, report: Outcome<string>) returns (r: Outcome<Value>)
      modifies this`testResults
      ensures r == TestRecord(run, report)
      ensures r.Ok? ==> testResults == old(testResults) + [r.value]
      ensures r.Fail? ==> testResults == old(testResults)
    {
      r := TestRecord(run, report);
      if r.Ok? {
        testResults := testResults + [r.value];
      }
    }

    /**
     * `run_testing_loop()`: inspect the walk, generate the stubs, write them,
     * run the tests. If a stub step raises, the error escapes before any file
     * is written or any test runs; otherwise every source's test file is
     * written and the result is the record of the test run.
     */
    method RunTestingLoop(walk: seq<WalkEntry>, run: PytestRun, report: Outcome<string>) returns (r: Outcome<Value>)
      modifies dispatcher`calls, clock`readings, disk`contents, this`testResults
      ensures var reqs := StubRequests(SourceFiles(walk), clock.time, old(clock.readings), agents);
        var answers := Replies(StubReply(dispatcher.reply), |old(dispatcher.calls)|, reqs);
        var k := FirstFailure(answers);
        && (k < |reqs| ==> && r == Fail(answers[k].error)
                           && disk.contents == old(disk.contents) && testResults == old(testResults))
        && (k == |reqs| ==> && r == TestRecord(run, report)
                            && testResults == old(testResults) + (if r.Ok? then [r.value] else [])
                            && HasTestFiles(SourceFiles(walk), disk.contents))
    {
      ghost var c0, r0 := dispatcher.calls, clock.readings;
      var sourceFiles := InspectFileStructure(walk);
      ghost var reqs := StubRequests(sourceFiles, clock.time, r0, agents);
      ghost var answers := Replies(StubReply(dispatcher.reply), |c0|, reqs);
      var testStubs;
      ghost var pairs;
      testStubs, pairs := GenerateTestStubs(sourceFiles);
      StubsOutcome(StubReply(dispatcher.reply), sourceFiles, reqs, c0, pairs, dispatcher.calls, testStubs);
      if testStubs.Fail? {
        return Fail(testStubs.error);
      }
      r := WriteAndRun(testStubs.value, sourceFiles, run, report);
    }

    /** The tail of `run_testing_loop`: write the stubs, then run the tests. */
    method WriteAndRun(testStubs: map<string, string>, ghost sources: seq<string>, run: PytestRun, report: Outcome<string>)
      returns (r: Outcome<Value>)
      requires forall f :: f in sources ==> f in testStubs
      modifies disk`contents, this`testResults
      ensures HasTestFiles(sources, disk.contents)
      ensures r == TestRecord(run, report)
      ensures testResults == old(testResults) + (if r.Ok? then [r.value] else [])
    {
      ghost var writer := WriteTestFiles(testStubs);
      WroteHasTestFiles(testStubs, sources, disk.contents, writer);
      r := RunTests(run, report);
    }
  }
}

module TestingScenarios {
  import opened Values
  import opened Oracles
  import opened Dispatch
  import opened TestingLoop

  /** A dispatcher that answers every call with the same insight lines. */
  function InsightsReply(lines: seq<string>): (nat, Request) -> Outcome<Value> {
    (n: nat, q: Request) => Ok(InsightsAnswer(lines))
  }

  /**
   * The stub scenario of the repository's test: one source file and an
   * answer holding insight lines give exactly that file, mapped to the lines
   * joined by newlines, which holds every line.
   */
  method GenerateStubsScenario(file: string, lines: seq<string>) returns (stubs: map<string, string>)
    requires lines != []
    ensures stubs == map[file := Join(lines, "\n")]
    ensures forall i :: 0 <= i < |lines| ==> Contains(stubs[file], lines[i])
  {
    var dispatcher := new Oracle<Request, Value>(InsightsReply(lines));
    var clock := new Clock(n => n);
    var disk := new Disk(map[]);
    var runner := new TestingLoopRunner(dispatcher, clock, disk, ["agent1", "agent2"], "tests");
    var r;
    ghost var pairs;
    r, pairs := runner.GenerateTestStubs([file]);
    ghost var reqs := StubRequests([file], clock.time, 0, runner.agents);
    ghost var answers := Replies(StubReply(dispatcher.reply), 0, reqs);
    StubOfInsights(InsightsAnswer(lines), lines);
    assert dispatcher.reply(0, reqs[0]) == Ok(InsightsAnswer(lines));
    assert StubStep(Ok(InsightsAnswer(lines))) == Ok(Join(lines, "\n"));
    assert answers[0] == StubStep(dispatcher.reply(0, reqs[0]));
    assert r.Ok?;
    ChainDone(StubReply(dispatcher.reply), reqs, StubPairs([file], answers), [], [], pairs, dispatcher.calls);
    assert pairs == [(file, Join(lines, "\n"))];
    assert ToMap(pairs) == ToMap([])[file := Join(lines, "\n")];
    stubs := r.value;
    StubKeepsLines(lines);
  }

  /** A dispatcher whose second call raises; other calls answer with an empty dict. */
  function SecondCallRaises(n: nat, q: Request): Outcome<Value> {
    if n == 1 then Fail("dispatcher unavailable") else Ok(Dict(map[]))
  }

  /**
   * With three source files and a dispatcher whose second call raises, the
   * error escapes after two calls and two clock readings, and no stub map is
   * returned.
   */
  method GenerateStubsFailureScenario(a: string, b: string, c: string) returns (r: Outcome<map<string, string>>, calls: nat, readings: nat)
    ensures r == Fail("dispatcher unavailable") && calls == 2 && readings == 2
  {
    var dispatcher := new Oracle<Request, Value>(SecondCallRaises);
    var clock := new Clock(n => n);
    var disk := new Disk(map[]);
    var runner := new TestingLoopRunner(dispatcher, clock, disk, ["agent1", "agent2"], "tests");
    ghost var pairs;
    r, pairs := runner.GenerateTestStubs([a, b, c]);
    ghost var reqs := StubRequests([a, b, c], clock.time, 0, runner.agents);
    ghost var answers := Replies(StubReply(dispatcher.reply), 0, reqs);
    StubOfPlaceholder(Dict(map[]));
    assert answers[0] == StubStep(SecondCallRaises(0, reqs[0])) == Ok(Placeholder);
    assert answers[1] == StubStep(SecondCallRaises(1, reqs[1])) == Fail("dispatcher unavailable");
    FirstFailureIs(answers, 1);
    assert r.Fail?;
    HaltedAnswer(StubReply(dispatcher.reply), reqs, StubPairs([a, b, c], answers), [], [], pairs, dispatcher.calls, r.error);
    calls := |dispatcher.calls|;
    readings := clock.readings;
  }
}
