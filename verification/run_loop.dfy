/** The run loop (`src/main.rs`): fetch a batch, stop on an empty one,
    otherwise run it and keep its results; upload everything once at the
    end. The queue server, the test listing and the runner are oracles;
    the environment is a map. The source loop is unbounded, so the model
    takes fuel and reports running out of it as an outcome of its own. */
module RunLoop {
  import opened Results
  import opened Errors
  import opened Models
  import opened CiProviders
  import opened GithubActions
  import opened KnapsackClient
  import opened TestContext

  const SuiteTokenVar: string := "KNAPSACK_PRO_TEST_SUITE_TOKEN"
  const Endpoint: string := "https://api.knapsackpro.com"

  /** Everything outside the process: the queue service, whether the
      workspace metadata the runner gateway caches could be prepared, the
      result of listing the workspace's tests, and the runner, which is told
      how many batches ran before this one and which filter arguments it was
      given. */
  datatype World = World(
    server: Server,
    prepared: bool,
    listing: Option<seq<Suite>>,
    runner: (nat, seq<string>) -> Execution)

  datatype Outcome = Completed | Failed(error: Error) | OutOfFuel

  /** A whole run: every request sent, every batch `get_tests` returned,
      every batch handed to the runner, the accumulated results, and how
      the run ended. */
  datatype Run = Run(
    requests: seq<Request>,
    fetched: seq<seq<Test>>,
    executed: seq<seq<Test>>,
    results: seq<TestResult>,
    outcome: Outcome)

  /** `run_tests` on the i-th batch of the run. */
  function RunBatch(w: World, i: nat, tests: seq<Test>): Result<seq<TestResult>, Error> {
    RunTests(tests, (args: seq<string>) => w.runner(i, args))
  }

  /** Where one iteration leaves the run: either ready for the next
      iteration, or ended. */
  datatype Iteration =
    | Continue(client: Client, requests: seq<Request>, batches: seq<seq<Test>>, results: seq<TestResult>)
    | Stop(run: Run)

  /** One iteration of the loop from the point reached so far: `batches`
      were fetched, were all non-empty and all ran, producing `results`. */
  function Iterate(c: Client, requests: seq<Request>, batches: seq<seq<Test>>, results: seq<TestResult>, w: World): Iteration {
    Advance(GetTests(c, w.server, requests, FindTests(w.listing)), requests, batches, results, w)
  }

  /** What the loop does with the answer `f` of `get_tests`: stop on a
      failure, upload and stop on an empty batch, otherwise run the batch. */
  function Advance(f: Fetch, requests: seq<Request>, batches: seq<seq<Test>>, results: seq<TestResult>, w: World): Iteration {
    var requests' := requests + f.sent;
    match f.result
    case Err(e) => Stop(Run(requests', batches, batches, results, Failed(e)))
    case Ok(tests) =>
      if tests == [] then
        var up := UploadTestResults(f.client, w.server, requests', results);
        Stop(Run(requests' + up.sent, batches + [[]], batches, results,
                 if up.result.Ok? then Completed else Failed(up.result.error)))
      else
        match RunBatch(w, |batches|, tests)
        case Err(e) => Stop(Run(requests', batches + [tests], batches + [tests], results, Failed(e)))
        case Ok(rs) => Continue(f.client, requests', batches + [tests], results + rs)
  }

  /** The state at the top of the loop: the client, the requests sent, the
      batches fetched and run, and their results. */
  type LoopBody = (Client, seq<Request>, seq<seq<Test>>, seq<TestResult>) -> Iteration
  type StateProp = (Client, seq<Request>, seq<seq<Test>>, seq<TestResult>) -> bool

  /** The loop's control: apply `body` until it stops or the fuel runs out. */
  function Drive(body: LoopBody, c: Client, requests: seq<Request>, batches: seq<seq<Test>>, results: seq<TestResult>,
                 fuel: nat): Run
    decreases fuel
  {
    if fuel == 0 then Run(requests, batches, batches, results, OutOfFuel)
    else
      match body(c, requests, batches, results)
      case Stop(r) => r
      case Continue(c', requests', batches', results') => Drive(body, c', requests', batches', results', fuel - 1)
  }

  function Body(w: World): LoopBody {
    (c: Client, requests: seq<Request>, batches: seq<seq<Test>>, results: seq<TestResult>) =>
      Iterate(c, requests, batches, results, w)
  }

  function Loop(c: Client, requests: seq<Request>, batches: seq<seq<Test>>, results: seq<TestResult>,
                w: World, fuel: nat): Run
  {
    Drive(Body(w), c, requests, batches, results, fuel)
  }

  /** `main`: without a suite token, or when the workspace metadata cannot
      be prepared, nothing else happens; otherwise a fresh client over the
      GitHub Actions provider drives the loop. */
  function Main(env: Env, w: World, fuel: nat): (r: Run)
    ensures SuiteTokenVar !in env ==> r == Run([], [], [], [], Failed(MissingSuiteToken))
    ensures SuiteTokenVar in env && !w.prepared ==> r == Run([], [], [], [], Failed(ContextUnavailable))
  {
    if SuiteTokenVar !in env then Run([], [], [], [], Failed(MissingSuiteToken))
    else if !w.prepared then Run([], [], [], [], Failed(ContextUnavailable))
    else Loop(New(Endpoint, env[SuiteTokenVar], GithubWrapper(env)), [], [], [], w, fuel)
  }

  /** The reference meaning of the accumulated results: the batches run in
      order, batch i with runner call i, their results concatenated; the
      first failure ends it. */
  function CollectResults(w: World, batches: seq<seq<Test>>): Result<seq<TestResult>, Error>
    decreases |batches|
  {
    if batches == [] then Ok([])
    else
      var prev :- CollectResults(w, batches[..|batches| - 1]);
      var rs :- RunBatch(w, |batches| - 1, batches[|batches| - 1]);
      Ok(prev + rs)
  }

  lemma CollectResultsStep(w: World, batches: seq<seq<Test>>, tests: seq<Test>, prev: seq<TestResult>, rs: seq<TestResult>)
    requires CollectResults(w, batches) == Ok(prev)
    requires RunBatch(w, |batches|, tests) == Ok(rs)
    ensures CollectResults(w, batches + [tests]) == Ok(prev + rs)
  {
    assert (batches + [tests])[..|batches|] == batches;
  }

  predicate Uploaded(r: Run) {
    |r.requests| > 0 && r.requests[|r.requests| - 1].SubsetRequest?
  }

  /** What every run looks like. Every batch handed to the runner was
      non-empty, and the only batch fetched but not run is a final empty
      one. Only the last request can be an upload, and it is sent exactly
      when that empty batch was fetched; it then carries the results of all
      batches, in batch order, and the run completes exactly when the
      upload is answered with a 2xx status. Only the first request attempts
      to connect to the queue. */
  ghost predicate RunShape(w: World, r: Run) {
    && (forall i :: 0 <= i < |r.executed| ==> r.executed[i] != [])
    && (r.fetched == r.executed || r.fetched == r.executed + [[]])
    && (forall k :: 0 <= k < |r.requests| - 1 ==> r.requests[k].QueueRequest?)
    && (forall k :: 0 < k < |r.requests| && r.requests[k].QueueRequest? ==> !r.requests[k].queue.attemptConnectToQueue)
    && (Uploaded(r) <==> r.fetched == r.executed + [[]])
    && (Uploaded(r) ==>
          var n := |r.requests|;
          var reply := w.server(r.requests[..n - 1], r.requests[n - 1]);
          && CollectResults(w, r.executed) == Ok(r.results)
          && r.requests[n - 1].subset.testFiles == TimedFiles(r.results)
          && (r.outcome == Completed <==> reply.Http? && IsSuccess(reply.status)))
    && (r.outcome == Completed ==> Uploaded(r))
  }

  /** What holds at the top of every loop iteration. */
  ghost predicate LoopInv(w: World, c: Client, requests: seq<Request>, batches: seq<seq<Test>>, results: seq<TestResult>) {
    && (forall i :: 0 <= i < |batches| ==> batches[i] != [])
    && CollectResults(w, batches) == Ok(results)
    && WireInv(c, requests)
  }

  ghost predicate WireInv(c: Client, requests: seq<Request>) {
    && (forall k :: 0 <= k < |requests| ==> requests[k].QueueRequest?)
    && (forall k :: 0 < k < |requests| ==> !requests[k].queue.attemptConnectToQueue)
    && (forall k :: 0 <= k < |requests| ==> requests[k].token == c.apiKey)
    && (!c.initialized ==> requests == [])
  }

  /** `get_tests` keeps the wire invariant: it only sends queue requests
      with the client's token, and only a first call attempts to connect. */
  lemma GetTestsKeepsWire(c: Client, requests: seq<Request>, w: World)
    requires WireInv(c, requests)
    ensures var f := GetTests(c, w.server, requests, FindTests(w.listing));
      && WireInv(f.client, requests + f.sent)
      && f.client.apiKey == c.apiKey && f.client.ci == c.ci
      && (f.result.Ok? ==> ReadCoordinates(c.ci).Ok?)
  {
    var f := GetTests(c, w.server, requests, FindTests(w.listing));
    GetTestsWire(c, w.server, requests, FindTests(w.listing));
    var requests' := requests + f.sent;
    if c.initialized {
      assert forall k :: 0 <= k < |f.sent| ==> !f.sent[k].queue.attemptConnectToQueue;
    }
    assert forall k :: 0 <= k < |requests'| ==> requests'[k] == if k < |requests| then requests[k] else f.sent[k - |requests|];
  }

  /** The state after an iteration that goes on: `get_tests` returned a
      non-empty batch, which ran; the run grows by exactly what was sent,
      that batch, and its results. */
  ghost predicate ExtendsBy(c: Client, requests: seq<Request>, batches: seq<seq<Test>>, results: seq<TestResult>,
                            w: World, s: Iteration) {
    var f := GetTests(c, w.server, requests, FindTests(w.listing));
    && s.Continue?
    && f.result.Ok? && f.result.value != [] && RunBatch(w, |batches|, f.result.value).Ok?
    && s.client == f.client
    && s.requests == requests + f.sent
    && s.batches == batches + [f.result.value]
    && s.results == results + RunBatch(w, |batches|, f.result.value).value
  }

  /** An iteration that goes on keeps the loop invariant and extends the
      run by exactly what `get_tests` sent and returned and by the results of
      running that batch. */
  lemma IterateContinues(c: Client, requests: seq<Request>, batches: seq<seq<Test>>, results: seq<TestResult>, w: World)
    requires LoopInv(w, c, requests, batches, results)
    requires Iterate(c, requests, batches, results, w).Continue?
    ensures var s := Iterate(c, requests, batches, results, w);
      && LoopInv(w, s.client, s.requests, s.batches, s.results)
      && ExtendsBy(c, requests, batches, results, w, s)
      && requests <= s.requests && batches <= s.batches
      && s.client.apiKey == c.apiKey
  {
    var f := GetTests(c, w.server, requests, FindTests(w.listing));
    GetTestsKeepsWire(c, requests, w);
    var tests := f.result.value;
    var rs := RunBatch(w, |batches|, tests).value;
    CollectResultsStep(w, batches, tests, results, rs);
  }

  /** What an iteration that ends the run leaves behind. */
  ghost predicate StopShape(w: World, c: Client, requests: seq<Request>, batches: seq<seq<Test>>, r: Run) {
    && RunShape(w, r)
    && requests <= r.requests && batches <= r.executed
    && forall k :: 0 <= k < |r.requests| ==> r.requests[k].token == c.apiKey
  }

  /** A failed fetch ends the run with that failure and without an upload;
      no batch is added. */
  lemma StopOnFetchError(c: Client, requests: seq<Request>, batches: seq<seq<Test>>, results: seq<TestResult>, w: World)
    requires LoopInv(w, c, requests, batches, results)
    requires GetTests(c, w.server, requests, FindTests(w.listing)).result.Err?
    ensures Iterate(c, requests, batches, results, w).Stop?
    ensures StopShape(w, c, requests, batches, Iterate(c, requests, batches, results, w).run)
    ensures var f := GetTests(c, w.server, requests, FindTests(w.listing));
      Iterate(c, requests, batches, results, w).run == Run(requests + f.sent, batches, batches, results, Failed(f.result.error))
  {
    GetTestsKeepsWire(c, requests, w);
  }

  /** A failed batch ends the run with the runner's failure and without an
      upload; the batch is logged as fetched and as handed to the runner. */
  lemma StopOnRunFailure(c: Client, requests: seq<Request>, batches: seq<seq<Test>>, results: seq<TestResult>, w: World)
    requires LoopInv(w, c, requests, batches, results)
    requires var f := GetTests(c, w.server, requests, FindTests(w.listing));
      f.result.Ok? && f.result.value != [] && RunBatch(w, |batches|, f.result.value).Err?
    ensures Iterate(c, requests, batches, results, w).Stop?
    ensures StopShape(w, c, requests, batches, Iterate(c, requests, batches, results, w).run)
    ensures var f := GetTests(c, w.server, requests, FindTests(w.listing));
      var tests := f.result.value;
      Iterate(c, requests, batches, results, w).run
        == Run(requests + f.sent, batches + [tests], batches + [tests], results, Failed(RunBatch(w, |batches|, tests).error))
  {
    var f := GetTests(c, w.server, requests, FindTests(w.listing));
    GetTestsKeepsWire(c, requests, w);
    var tests := f.result.value;
    var e := RunBatch(w, |batches|, tests).error;
    var requests' := requests + f.sent;
    var r := Run(requests', batches + [tests], batches + [tests], results, Failed(e));
    assert Iterate(c, requests, batches, results, w) == Stop(r);
    forall i | 0 <= i < |r.executed| ensures r.executed[i] != [] {
      if i < |batches| {
        assert r.executed[i] == batches[i];
      }
    }
    assert !Uploaded(r);
  }

  /** An empty batch ends the loop without being run, and the one upload of
      the results so far follows the fetch's requests. */
  lemma StopOnEmptyBatch(c: Client, requests: seq<Request>, batches: seq<seq<Test>>, results: seq<TestResult>, w: World)
    requires LoopInv(w, c, requests, batches, results)
    requires GetTests(c, w.server, requests, FindTests(w.listing)).result == Ok([])
    ensures Iterate(c, requests, batches, results, w).Stop?
    ensures StopShape(w, c, requests, batches, Iterate(c, requests, batches, results, w).run)
    ensures var f := GetTests(c, w.server, requests, FindTests(w.listing));
      var r := Iterate(c, requests, batches, results, w).run;
      && r.fetched == batches + [[]] && r.executed == batches && r.results == results
      && requests + f.sent <= r.requests
    ensures var f := GetTests(c, w.server, requests, FindTests(w.listing));
      var r := Iterate(c, requests, batches, results, w).run;
      && ReadCoordinates(c.ci).Ok?
      && var up := UploadRequest(f.client, ReadCoordinates(c.ci).value, results);
      && r.requests == requests + f.sent + [up]
      && var answer := CheckStatus(w.server(requests + f.sent, up));
      && r.outcome == (if answer.Ok? then Completed else Failed(answer.error))
  {
    var f := GetTests(c, w.server, requests, FindTests(w.listing));
    GetTestsKeepsWire(c, requests, w);
    assert Iterate(c, requests, batches, results, w) == Advance(f, requests, batches, results, w);
    AdvanceUploads(f, requests, batches, results, w);
    var requests' := requests + f.sent;
    var up := UploadRequest(f.client, ReadCoordinates(c.ci).value, results);
    var r := Iterate(c, requests, batches, results, w).run;
    assert r.requests[..|r.requests| - 1] == requests';
    assert r.requests[|r.requests| - 1] == up;
  }

  /** An empty batch is followed by exactly one upload of the results so
      far, whose answer decides the outcome. */
  lemma AdvanceUploads(f: Fetch, requests: seq<Request>, batches: seq<seq<Test>>, results: seq<TestResult>, w: World)
    requires f.result == Ok([]) && ReadCoordinates(f.client.ci).Ok?
    ensures var up := UploadRequest(f.client, ReadCoordinates(f.client.ci).value, results);
      var answer := CheckStatus(w.server(requests + f.sent, up));
      Advance(f, requests, batches, results, w)
        == Stop(Run(requests + f.sent + [up], batches + [[]], batches, results,
                    if answer.Ok? then Completed else Failed(answer.error)))
  {
  }

  /** An iteration that ends the run leaves it in the shape of every run. */
  lemma IterateStops(c: Client, requests: seq<Request>, batches: seq<seq<Test>>, results: seq<TestResult>, w: World)
    requires LoopInv(w, c, requests, batches, results)
    requires Iterate(c, requests, batches, results, w).Stop?
    ensures StopShape(w, c, requests, batches, Iterate(c, requests, batches, results, w).run)
  {
    var f := GetTests(c, w.server, requests, FindTests(w.listing));
    if f.result.Err? {
      StopOnFetchError(c, requests, batches, results, w);
    } else if f.result.value == [] {
      StopOnEmptyBatch(c, requests, batches, results, w);
    } else {
      StopOnRunFailure(c, requests, batches, results, w);
    }
  }

  /** An iteration keeps `p` or ends the run in `q`. */
  ghost predicate KeepsOrEnds(p: StateProp, q: Run -> bool, s: Iteration) {
    match s
    case Continue(c, requests, batches, results) => p(c, requests, batches, results)
    case Stop(r) => q(r)
  }

  /** `p` is a loop invariant that establishes `q` of the run, whether the
      loop stops by itself or runs out of fuel. */
  ghost predicate Establishes(body: LoopBody, p: StateProp, q: Run -> bool) {
    forall c, requests, batches, results :: p(c, requests, batches, results) ==>
      && q(Run(requests, batches, batches, results, OutOfFuel))
      && KeepsOrEnds(p, q, body(c, requests, batches, results))
  }

  /** Induction over the loop, once for all its properties. */
  lemma {:induction false} DriveEstablishes(body: LoopBody, p: StateProp, q: Run -> bool, c: Client, requests: seq<Request>,
                                            batches: seq<seq<Test>>, results: seq<TestResult>, fuel: nat)
    requires Establishes(body, p, q) && p(c, requests, batches, results)
    ensures q(Drive(body, c, requests, batches, results, fuel))
    decreases fuel
  {
    if fuel > 0 {
      var s := body(c, requests, batches, results);
      assert KeepsOrEnds(p, q, s);
      if s.Continue? {
        DriveEstablishes(body, p, q, s.client, s.requests, s.batches, s.results, fuel - 1);
      }
    }
  }

  lemma LoopShape(c: Client, requests: seq<Request>, batches: seq<seq<Test>>,
                  results: seq<TestResult>, w: World, fuel: nat)
    requires LoopInv(w, c, requests, batches, results)
    ensures var r := Loop(c, requests, batches, results, w, fuel);
      && RunShape(w, r)
      && requests <= r.requests
      && batches <= r.executed
      && forall k :: 0 <= k < |r.requests| ==> r.requests[k].token == c.apiKey
  {
    IterateShapedAll(w);
    DriveShape(Body(w), c, requests, batches, results, w, fuel);
  }

  /** One iteration keeps the loop invariant, growing the run and keeping
      the token, or ends the run in its final shape. */
  ghost predicate ShapedStep(w: World, c: Client, requests: seq<Request>, batches: seq<seq<Test>>, s: Iteration) {
    match s
    case Continue(c', requests', batches', results') =>
      LoopInv(w, c', requests', batches', results') && requests <= requests' && batches <= batches' && c'.apiKey == c.apiKey
    case Stop(r) => StopShape(w, c, requests, batches, r)
  }

  ghost predicate ShapesSteps(body: LoopBody, w: World) {
    forall c: Client, requests: seq<Request>, batches: seq<seq<Test>>, results: seq<TestResult> ::
      LoopInv(w, c, requests, batches, results) ==> ShapedStep(w, c, requests, batches, body(c, requests, batches, results))
  }

  lemma IterateShapedAll(w: World)
    ensures ShapesSteps(Body(w), w)
  {
    forall c: Client, requests: seq<Request>, batches: seq<seq<Test>>, results: seq<TestResult> | LoopInv(w, c, requests, batches, results)
      ensures ShapedStep(w, c, requests, batches, Body(w)(c, requests, batches, results))
    {
      if Iterate(c, requests, batches, results, w).Stop? {
        IterateStops(c, requests, batches, results, w);
      } else {
        IterateContinues(c, requests, batches, results, w);
      }
    }
  }

  /** The induction behind `LoopShape`, for any body whose steps keep the shape. */
  lemma DriveShape(body: LoopBody, c: Client, requests: seq<Request>, batches: seq<seq<Test>>,
                   results: seq<TestResult>, w: World, fuel: nat)
    requires ShapesSteps(body, w) && LoopInv(w, c, requests, batches, results)
    ensures var r := Drive(body, c, requests, batches, results, fuel);
      && RunShape(w, r)
      && requests <= r.requests
      && batches <= r.executed
      && forall k :: 0 <= k < |r.requests| ==> r.requests[k].token == c.apiKey
  {
    var p := (c': Client, rq: seq<Request>, bs: seq<seq<Test>>, rs: seq<TestResult>) =>
      LoopInv(w, c', rq, bs, rs) && requests <= rq && batches <= bs && c'.apiKey == c.apiKey;
    var q := (r: Run) =>
      && RunShape(w, r) && requests <= r.requests && batches <= r.executed
      && forall k :: 0 <= k < |r.requests| ==> r.requests[k].token == c.apiKey;
    forall c', rq, bs, rs | p(c', rq, bs, rs)
      ensures q(Run(rq, bs, bs, rs, OutOfFuel)) && KeepsOrEnds(p, q, body(c', rq, bs, rs))
    {
      OutOfFuelShape(w, c', rq, bs, rs);
      assert ShapedStep(w, c', rq, bs, body(c', rq, bs, rs));
    }
    DriveEstablishes(body, p, q, c, requests, batches, results, fuel);
  }

  /** Running out of fuel leaves a run in the shape of every run. */
  lemma OutOfFuelShape(w: World, c: Client, requests: seq<Request>, batches: seq<seq<Test>>, results: seq<TestResult>)
    requires LoopInv(w, c, requests, batches, results)
    ensures RunShape(w, Run(requests, batches, batches, results, OutOfFuel))
  {
  }

  /** Every run `main` can make has the shape above, and every request it
      sends carries the suite token from the environment. */
  lemma MainShape(env: Env, w: World, fuel: nat)
    ensures RunShape(w, Main(env, w, fuel))
    ensures SuiteTokenVar in env ==>
      forall k :: 0 <= k < |Main(env, w, fuel).requests| ==> Main(env, w, fuel).requests[k].token == env[SuiteTokenVar]
  {
    if SuiteTokenVar in env && w.prepared {
      var client := New(Endpoint, env[SuiteTokenVar], GithubWrapper(env));
      LoopShape(client, [], [], [], w, fuel);
    }
  }

  /** Batch i of the log is the queue's answer to request `shift + i`,
      decoded: the batches are exactly what the server handed out, one per
      request from `shift` on. */
  ghost predicate Answered(w: World, requests: seq<Request>, batches: seq<seq<Test>>, shift: nat) {
    forall i :: 0 <= i < |batches| ==> AnsweredAt(w, requests, batches, shift, i)
  }

  ghost predicate AnsweredAt(w: World, requests: seq<Request>, batches: seq<seq<Test>>, shift: nat, i: nat)
    requires i < |batches|
  {
    && shift + i < |requests|
    && FilesReply(w.server(requests[..shift + i], requests[shift + i])) == Ok(batches[i])
  }

  /** How far batches and requests are apart in a run from a fresh client:
      one when the first answer was the not-initialized sentinel, so that a
      cold start was sent before the first batch came back, none otherwise. */
  ghost function Shift(w: World, requests: seq<Request>): nat {
    if |requests| > 0 && IsSentinel(w.server([], requests[0])) then 1 else 0
  }

  lemma AnsweredExtends(w: World, requests: seq<Request>, requests': seq<Request>, batches: seq<seq<Test>>, shift: nat)
    requires Answered(w, requests, batches, shift) && requests <= requests'
    ensures Answered(w, requests', batches, shift)
  {
    forall i | 0 <= i < |batches| ensures AnsweredAt(w, requests', batches, shift, i) {
      assert AnsweredAt(w, requests, batches, shift, i);
      assert requests'[..shift + i] == requests[..shift + i];
    }
  }

  /** Appending a batch answered by the next request keeps the log answered. */
  lemma AnsweredAppend(w: World, requests: seq<Request>, batches: seq<seq<Test>>, shift: nat,
                       extra: seq<Request>, b: seq<Test>)
    requires Answered(w, requests, batches, shift) && shift + |batches| == |requests|
    requires extra != [] && FilesReply(w.server(requests, extra[0])) == Ok(b)
    ensures Answered(w, requests + extra, batches + [b], shift)
  {
    var rq := requests + extra;
    var bs := batches + [b];
    AnsweredExtends(w, requests, rq, batches, shift);
    assert rq[..|requests|] == requests;
    assert rq[|requests|] == extra[0];
    forall i | 0 <= i < |bs| ensures AnsweredAt(w, rq, bs, shift, i) {
      if i < |batches| {
        assert AnsweredAt(w, rq, batches, shift, i);
      }
    }
  }

  /** Where an iteration of a client that only polls leaves the log. */
  ghost predicate PollingStep(s: Iteration, requests: seq<Request>, batches: seq<seq<Test>>, w: World, shift: nat) {
    match s
    case Continue(c', requests', batches', _) =>
      && c'.initialized && shift + |batches'| == |requests'| && Answered(w, requests', batches', shift)
      && requests <= requests' && batches <= batches'
    case Stop(r) =>
      Answered(w, r.requests, r.fetched, shift) && requests <= r.requests && batches <= r.fetched
  }

  /** One iteration keeps the log answered when the fetch's batch is the
      decoded answer to the last request the fetch sent. */
  lemma AdvanceAnswers(f: Fetch, requests: seq<Request>, batches: seq<seq<Test>>, results: seq<TestResult>,
                       w: World, shift: nat)
    requires Answered(w, requests, batches, shift)
    requires f.result.Ok? ==>
      && f.sent != []
      && shift + |batches| == |requests| + |f.sent| - 1
      && FilesReply(w.server(requests + f.sent[..|f.sent| - 1], f.sent[|f.sent| - 1])) == f.result
    ensures match Advance(f, requests, batches, results, w)
      case Continue(_, requests', batches', _) =>
        && requests' == requests + f.sent && batches' == batches + [f.result.value]
        && shift + |batches'| == |requests'| && Answered(w, requests', batches', shift)
      case Stop(r) =>
        && Answered(w, r.requests, r.fetched, shift) && requests + f.sent <= r.requests && batches <= r.fetched
        && (f.result.Ok? ==> |r.fetched| == |batches| + 1 && r.fetched[|batches|] == f.result.value)
        && (f.result.Err? ==> r.fetched == batches && r.outcome == Failed(f.result.error))
  {
    var requests' := requests + f.sent;
    if f.result.Err? {
      AnsweredExtends(w, requests, requests', batches, shift);
      assert Advance(f, requests, batches, results, w) == Stop(Run(requests', batches, batches, results, Failed(f.result.error)));
    } else {
      var k := |f.sent| - 1;
      var pre := requests + f.sent[..k];
      AnsweredExtends(w, requests, pre, batches, shift);
      var tests := f.result.value;
      if tests == [] {
        EmptyBatchAnswered(f, requests, batches, results, w, shift);
      } else {
        assert requests' == pre + [f.sent[k]];
        AnsweredAppend(w, pre, batches, shift, [f.sent[k]], tests);
        match RunBatch(w, |batches|, tests)
        case Err(e) =>
          assert Advance(f, requests, batches, results, w) == Stop(Run(requests', batches + [tests], batches + [tests], results, Failed(e)));
        case Ok(rs) =>
          assert Advance(f, requests, batches, results, w) == Continue(f.client, requests', batches + [tests], results + rs);
      }
    }
  }

  /** The empty batch is logged as the answer to the fetch's last request,
      whatever the upload after it sends. */
  lemma EmptyBatchAnswered(f: Fetch, requests: seq<Request>, batches: seq<seq<Test>>, results: seq<TestResult>,
                           w: World, shift: nat)
    requires f.result == Ok([]) && f.sent != []
    requires shift + |batches| == |requests| + |f.sent| - 1
    requires Answered(w, requests + f.sent[..|f.sent| - 1], batches, shift)
    requires FilesReply(w.server(requests + f.sent[..|f.sent| - 1], f.sent[|f.sent| - 1])) == f.result
    ensures var s := Advance(f, requests, batches, results, w);
      && s.Stop? && Answered(w, s.run.requests, s.run.fetched, shift)
      && requests + f.sent <= s.run.requests && s.run.fetched == batches + [[]]
  {
    var k := |f.sent| - 1;
    var pre := requests + f.sent[..k];
    var requests' := requests + f.sent;
    var up := UploadTestResults(f.client, w.server, requests', results);
    var r := Run(requests' + up.sent, batches + [[]], batches, results,
                 if up.result.Ok? then Completed else Failed(up.result.error));
    assert Advance(f, requests, batches, results, w) == Stop(r);
    assert r.requests == pre + ([f.sent[k]] + up.sent);
    AnsweredAppend(w, pre, batches, shift, [f.sent[k]] + up.sent, []);
  }

  /** An iteration of an initialized client sends at most one poll, and the
      batch it logs, if any, is the decoded answer to that poll. */
  lemma IterateAnswers(c: Client, requests: seq<Request>, batches: seq<seq<Test>>, results: seq<TestResult>,
                       w: World, shift: nat)
    requires c.initialized && shift + |batches| == |requests| && Answered(w, requests, batches, shift)
    ensures PollingStep(Iterate(c, requests, batches, results, w), requests, batches, w, shift)
  {
    var f := GetTests(c, w.server, requests, FindTests(w.listing));
    if f.result.Ok? {
      assert f.sent[..0] == [];
      assert requests + [] == requests;
    }
    AdvanceAnswers(f, requests, batches, results, w, shift);
  }

  /** Every polling iteration of `body` keeps the log answered. */
  ghost predicate PollsAnswered(body: LoopBody, w: World, shift: nat) {
    forall c: Client, requests: seq<Request>, batches: seq<seq<Test>>, results: seq<TestResult> ::
      c.initialized && shift + |batches| == |requests| && Answered(w, requests, batches, shift) ==>
        PollingStep(body(c, requests, batches, results), requests, batches, w, shift)
  }

  lemma IteratePollsAnswered(w: World, shift: nat)
    ensures PollsAnswered(Body(w), w, shift)
  {
    forall c: Client, requests: seq<Request>, batches: seq<seq<Test>>, results: seq<TestResult> | c.initialized && shift + |batches| == |requests| && Answered(w, requests, batches, shift)
      ensures PollingStep(Body(w)(c, requests, batches, results), requests, batches, w, shift)
    {
      IterateAnswers(c, requests, batches, results, w, shift);
    }
  }

  /** The loop's control, driven by iterations that keep the log answered,
      ends with the log answered. */
  lemma DriveAnswers(body: LoopBody, c: Client, requests: seq<Request>, batches: seq<seq<Test>>,
                     results: seq<TestResult>, w: World, fuel: nat, shift: nat)
    requires PollsAnswered(body, w, shift)
    requires c.initialized && shift + |batches| == |requests| && Answered(w, requests, batches, shift)
    ensures var r := Drive(body, c, requests, batches, results, fuel);
      Answered(w, r.requests, r.fetched, shift) && requests <= r.requests && batches <= r.fetched
  {
    var p := (c': Client, rq: seq<Request>, bs: seq<seq<Test>>, rs: seq<TestResult>) =>
      c'.initialized && shift + |bs| == |rq| && Answered(w, rq, bs, shift) && requests <= rq && batches <= bs;
    var q := (r: Run) => Answered(w, r.requests, r.fetched, shift) && requests <= r.requests && batches <= r.fetched;
    forall c', rq, bs, rs | p(c', rq, bs, rs)
      ensures q(Run(rq, bs, bs, rs, OutOfFuel)) && KeepsOrEnds(p, q, body(c', rq, bs, rs))
    {
      assert PollingStep(body(c', rq, bs, rs), rq, bs, w, shift);
    }
    DriveEstablishes(body, p, q, c, requests, batches, results, fuel);
  }

  /** Once the client polls, every batch the loop fetches is the decoded
      answer to its poll. */
  lemma LoopAnswers(c: Client, requests: seq<Request>, batches: seq<seq<Test>>,
                    results: seq<TestResult>, w: World, fuel: nat, shift: nat)
    requires c.initialized && shift + |batches| == |requests| && Answered(w, requests, batches, shift)
    ensures var r := Loop(c, requests, batches, results, w, fuel);
      Answered(w, r.requests, r.fetched, shift) && requests <= r.requests && batches <= r.fetched
  {
    IteratePollsAnswered(w, shift);
    DriveAnswers(Body(w), c, requests, batches, results, w, fuel, shift);
  }

  /** Where the first iteration from a fresh client, whose `get_tests`
      answered `f`, leaves the log. */
  ghost predicate FirstStep(s: Iteration, f: Fetch, w: World) {
    match s
    case Continue(c', requests', batches', _) =>
      && c'.initialized && requests' == f.sent && f.result.Ok? && batches' == [f.result.value]
      && |requests'| > 0
      && Shift(w, requests') + |batches'| == |requests'| && Answered(w, requests', batches', Shift(w, requests'))
    case Stop(r) =>
      && Answered(w, r.requests, r.fetched, Shift(w, r.requests)) && f.sent <= r.requests
      && (f.result.Ok? ==> r.fetched == [f.result.value])
      && (f.result.Err? ==> r.fetched == [] && r.outcome == Failed(f.result.error))
  }

  /** A first `get_tests` that succeeds returns the decoded answer to the
      last request it sent, which is preceded by the connect attempt exactly
      when that attempt was answered with the sentinel. */
  lemma FirstFetchAnswered(c: Client, w: World)
    requires !c.initialized
    requires GetTests(c, w.server, [], FindTests(w.listing)).result.Ok?
    ensures var f := GetTests(c, w.server, [], FindTests(w.listing));
      && |f.sent| > 0 && Shift(w, f.sent) == |f.sent| - 1
      && FilesReply(w.server(f.sent[..|f.sent| - 1], f.sent[|f.sent| - 1])) == f.result
  {
    var f := GetTests(c, w.server, [], FindTests(w.listing));
    var connect := ConnectRequest(c, ReadCoordinates(c.ci).value);
    if IsSentinel(w.server([], connect)) {
      assert [] + [connect] == [connect];
      assert f.sent[..1] == [connect];
    } else {
      assert f.sent[..0] == [];
    }
  }

  /** The first iteration: the connect attempt, and a cold start when it is
      answered with the sentinel; the first batch is the decoded answer to
      the last of these. */
  lemma FirstIterateAnswers(c: Client, w: World)
    requires !c.initialized
    ensures FirstStep(Iterate(c, [], [], [], w), GetTests(c, w.server, [], FindTests(w.listing)), w)
  {
    var f := GetTests(c, w.server, [], FindTests(w.listing));
    if f.result.Ok? {
      FirstFetchAnswered(c, w);
    }
    FirstAdvance(f, w);
  }

  /** The first iteration, for any first fetch that answers its last request. */
  lemma FirstAdvance(f: Fetch, w: World)
    requires f.result.Ok? ==>
      && f.client.initialized && |f.sent| > 0 && Shift(w, f.sent) == |f.sent| - 1
      && FilesReply(w.server(f.sent[..|f.sent| - 1], f.sent[|f.sent| - 1])) == f.result
    ensures FirstStep(Advance(f, [], [], [], w), f, w)
  {
    var shift := if f.result.Ok? then |f.sent| - 1 else 0;
    if f.result.Ok? {
      assert [] + f.sent[..|f.sent| - 1] == f.sent[..|f.sent| - 1];
    }
    AdvanceAnswers(f, [], [], [], w, shift);
    if f.result.Ok? {
      var s := Advance(f, [], [], [], w);
      var rq := if s.Continue? then s.requests else s.run.requests;
      assert rq[0] == f.sent[0];
      assert Shift(w, rq) == Shift(w, f.sent);
    }
    assert [] + f.sent == f.sent;
    var none: seq<seq<Test>> := [];
    assert none + [[]] == [[]];
  }

  /** A run from a fresh client: every batch is the decoded answer to its
      request, shifted by the cold start if there was one, and the first
      `get_tests` opens the run. */
  lemma FreshLoop(c: Client, w: World, fuel: nat)
    requires !c.initialized && fuel > 0
    ensures var f := GetTests(c, w.server, [], FindTests(w.listing));
      OpensWith(Loop(c, [], [], [], w, fuel), f, w)
  {
    FirstIterateAnswers(c, w);
    assert Body(w)(c, [], [], []) == Iterate(c, [], [], [], w);
    IteratePollsAnswered(w, 0);
    IteratePollsAnswered(w, 1);
    DriveFresh(Body(w), c, w, fuel, GetTests(c, w.server, [], FindTests(w.listing)));
  }

  /** A run opened by the fetch `f`: every batch is the decoded answer to its
      request, shifted by the cold start if there was one, and `f` is the
      run's first fetch. */
  ghost predicate OpensWith(r: Run, f: Fetch, w: World) {
    && Answered(w, r.requests, r.fetched, Shift(w, r.requests))
    && f.sent <= r.requests
    && (f.result.Ok? ==> |r.fetched| > 0 && r.fetched[0] == f.result.value)
    && (f.result.Err? ==> r.fetched == [] && r.outcome == Failed(f.result.error))
  }

  lemma DriveFresh(body: LoopBody, c: Client, w: World, fuel: nat, f: Fetch)
    requires fuel > 0
    requires FirstStep(body(c, [], [], []), f, w)
    requires PollsAnswered(body, w, 0) && PollsAnswered(body, w, 1)
    ensures OpensWith(Drive(body, c, [], [], [], fuel), f, w)
  {
    var s := body(c, [], [], []);
    DriveStep(body, c, [], [], [], fuel);
    if s.Continue? {
      var shift := Shift(w, s.requests);
      DriveAnswers(body, s.client, s.requests, s.batches, s.results, w, fuel - 1, shift);
      ContinuedRun(w, s.requests, s.batches, Drive(body, s.client, s.requests, s.batches, s.results, fuel - 1));
    }
  }

  /** One turn of the loop's control. */
  lemma DriveStep(body: LoopBody, c: Client, requests: seq<Request>, batches: seq<seq<Test>>, results: seq<TestResult>,
                  fuel: nat)
    requires fuel > 0
    ensures var s := body(c, requests, batches, results);
      Drive(body, c, requests, batches, results, fuel)
        == if s.Stop? then s.run else Drive(body, s.client, s.requests, s.batches, s.results, fuel - 1)
  {
  }

  /** A run that extends a non-empty start keeps its first request, and so
      its shift, and its first batch. */
  lemma ContinuedRun(w: World, requests: seq<Request>, batches: seq<seq<Test>>, r: Run)
    requires requests != [] && batches != [] && requests <= r.requests && batches <= r.fetched
    ensures Shift(w, r.requests) == Shift(w, requests) && r.fetched[0] == batches[0]
  {
    assert r.requests[0] == requests[0];
  }

  /** Every batch `main` fetched is the server's answer to its request,
      decoded: batch i answers request i, or request i + 1 when the queue
      first had to be cold-started. */
  lemma MainAnswers(env: Env, w: World, fuel: nat)
    ensures var r := Main(env, w, fuel);
      Answered(w, r.requests, r.fetched, Shift(w, r.requests))
  {
    if SuiteTokenVar in env && w.prepared && fuel > 0 {
      FreshLoop(New(Endpoint, env[SuiteTokenVar], GithubWrapper(env)), w, fuel);
    }
    assert Answered(w, [], [], 0);
  }

  /** `main` with a suite token and a prepared workspace does drive the
      loop: its first requests are those of the first `get_tests` on a fresh
      client, a batch that call returns is the first batch of the run, and
      a failure of that call ends the run with it. */
  lemma MainFirstFetch(env: Env, w: World, fuel: nat)
    requires SuiteTokenVar in env && w.prepared && fuel > 0
    ensures var f := GetTests(New(Endpoint, env[SuiteTokenVar], GithubWrapper(env)), w.server, [], FindTests(w.listing));
      var r := Main(env, w, fuel);
      && f.sent <= r.requests
      && (f.result.Ok? ==> |r.fetched| > 0 && r.fetched[0] == f.result.value)
      && (f.result.Err? ==> r.fetched == [] && r.outcome == Failed(f.result.error))
  {
    FreshLoop(New(Endpoint, env[SuiteTokenVar], GithubWrapper(env)), w, fuel);
  }
}
