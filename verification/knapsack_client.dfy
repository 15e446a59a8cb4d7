/** The queue protocol client (`src/knapsack_client.rs`). The HTTP server
    is an oracle from the requests sent so far and the current request to a
    response; request and response bodies are records rather than JSON.
    The client's `initialized` flag is explicit state, returned with every
    call. */
module KnapsackClient {
  import opened Results
  import opened Errors
  import opened UsizeFromStr
  import opened Models
  import opened CiProviders

  const QueuePath: string := "/v1/queues/queue"
  const BuildSubsetsPath: string := "/v1/build_subsets"
  const AttemptConnectFailed: string := "ATTEMPT_CONNECT_TO_QUEUE_FAILED"

  /** The body POSTed to the queue endpoint. */
  datatype QueueBody = QueueBody(
    canInitializeQueue: bool,
    attemptConnectToQueue: bool,
    fixedQueueSplit: bool,
    commitHash: string,
    branch: string,
    nodeTotal: Usize,
    nodeIndex: Usize,
    nodeBuildId: string,
    testFiles: Option<seq<string>>)

  datatype TimedFile = TimedFile(path: string, timeExecution: Seconds)

  /** The body POSTed to the build-subsets endpoint. */
  datatype SubsetBody = SubsetBody(
    commitHash: string,
    branch: string,
    nodeTotal: Usize,
    nodeIndex: Usize,
    testFiles: seq<TimedFile>)

  /** A request: the URL, the suite-token header and the body. */
  datatype Request =
    | QueueRequest(url: string, token: string, queue: QueueBody)
    | SubsetRequest(url: string, token: string, subset: SubsetBody)

  /** A response body as the client reads it: not JSON at all, or JSON with
      the string value of `code` (when `code` is a string) and the paths of
      `test_files` (when it is an array of objects with string `path`s). */
  datatype ResponseBody =
    | NotJson
    | Json(code: Option<string>, testFiles: Option<seq<string>>)

  datatype Response =
    | Unreachable                         // the request could not be executed
    | Http(status: int, body: ResponseBody)

  /** The remote service: its answer may depend on every request it has seen. */
  type Server = (seq<Request>, Request) -> Response

  datatype Client = Client(initialized: bool, endpoint: string, apiKey: string, ci: CiProviderWrapper)

  datatype Coordinates = Coordinates(nodeTotal: Usize, nodeIndex: Usize, branch: string, commitHash: string)

  /** What one protocol step put on the wire and what it yielded. */
  datatype Exchange<T> = Exchange(sent: seq<Request>, result: Result<T, Error>)

  /** What `get_tests` put on the wire, what it yielded, and the client after it. */
  datatype Fetch = Fetch(client: Client, sent: seq<Request>, result: Result<seq<Test>, Error>)

  /** `KnapsackClient::new`. */
  function New(endpoint: string, apiKey: string, ci: CiProviderWrapper): (c: Client)
    ensures !c.initialized
    ensures c.endpoint == endpoint && c.apiKey == apiKey && c.ci == ci
  {
    Client(false, endpoint, apiKey, ci)
  }

  function WithStep<T>(step: Step, r: Result<T, CiError>): (r': Result<T, Error>)
    ensures r'.Ok? <==> r.Ok?
    ensures r.Ok? ==> r'.value == r.value
    ensures r.Err? ==> r'.error == CoordinateUnavailable(step, r.error)
  {
    match r
    case Ok(v) => Ok(v)
    case Err(e) => Err(CoordinateUnavailable(step, e))
  }

  /** The coordinates every request carries, read in the source's order:
      node total, node index, branch, commit hash. */
  function ReadCoordinates(w: CiProviderWrapper): (r: Result<Coordinates, Error>)
    ensures r.Ok? <==> NodeTotal(w).Ok? && NodeIndex(w).Ok? && Branch(w).Ok? && CommitHash(w).Ok?
    ensures r.Ok? ==> r.value == Coordinates(NodeTotal(w).value, NodeIndex(w).value, Branch(w).value, CommitHash(w).value)
    ensures NodeTotal(w).Err? ==> r == Err(CoordinateUnavailable(NodeTotalStep, NodeTotal(w).error))
    ensures NodeTotal(w).Ok? && NodeIndex(w).Err? ==> r == Err(CoordinateUnavailable(NodeIndexStep, NodeIndex(w).error))
    ensures NodeTotal(w).Ok? && NodeIndex(w).Ok? && Branch(w).Err? ==>
              r == Err(CoordinateUnavailable(BranchStep, Branch(w).error))
    ensures NodeTotal(w).Ok? && NodeIndex(w).Ok? && Branch(w).Ok? && CommitHash(w).Err? ==>
              r == Err(CoordinateUnavailable(CommitHashStep, CommitHash(w).error))
  {
    var total :- WithStep(NodeTotalStep, NodeTotal(w));
    var index :- WithStep(NodeIndexStep, NodeIndex(w));
    var branch :- WithStep(BranchStep, Branch(w));
    var commit :- WithStep(CommitHashStep, CommitHash(w));
    Ok(Coordinates(total, index, branch, commit))
  }

  function QueueRequestOf(c: Client, co: Coordinates, canInit: bool, attempt: bool, files: Option<seq<string>>): Request {
    QueueRequest(c.endpoint + QueuePath, c.apiKey,
      QueueBody(canInit, attempt, IsFixedQueueSplit(c.ci), co.commitHash, co.branch,
                co.nodeTotal, co.nodeIndex, NodeBuildId(c.ci), files))
  }

  /** The first request: may initialize, attempts to connect, no test list. */
  function ConnectRequest(c: Client, co: Coordinates): Request {
    QueueRequestOf(c, co, true, true, None)
  }

  /** The cold-start request: may initialize, does not attempt to connect,
      and carries the encoding of every found test. */
  function ColdStartRequest(c: Client, co: Coordinates, tests: seq<Test>): Request {
    QueueRequestOf(c, co, true, false, Some(EncodeAll(tests)))
  }

  /** Every later request: neither initializes nor connects, no test list. */
  function PollRequest(c: Client, co: Coordinates): Request {
    QueueRequestOf(c, co, false, false, None)
  }

  function EncodeAll(tests: seq<Test>): (r: seq<string>)
    ensures |r| == |tests|
    ensures forall k :: 0 <= k < |tests| ==> r[k] == ToKnapsackFile(tests[k])
  {
    seq(|tests|, k requires 0 <= k < |tests| => ToKnapsackFile(tests[k]))
  }

  predicate IsSuccess(status: int) {
    200 <= status <= 299
  }

  /** The first response's sentinel: queue not initialized by any node yet. */
  predicate IsSentinel(resp: Response) {
    resp.Http? && IsSuccess(resp.status) && resp.body.Json? && resp.body.code == Some(AttemptConnectFailed)
  }

  function CheckStatus(resp: Response): (r: Result<ResponseBody, Error>)
    ensures r.Ok? <==> resp.Http? && IsSuccess(resp.status)
    ensures r.Ok? ==> r.value == resp.body
    ensures resp.Unreachable? ==> r == Err(RequestFailed)
    ensures resp.Http? && !IsSuccess(resp.status) ==> r == Err(UnsuccessfulStatus(resp.status))
  {
    match resp
    case Unreachable => Err(RequestFailed)
    case Http(status, body) => if IsSuccess(status) then Ok(body) else Err(UnsuccessfulStatus(status))
  }

  /** Decoding of a response's paths: all must decode, in order; the first
      that does not is reported. */
  function DecodeAll(paths: seq<string>): (r: Result<seq<Test>, Error>)
    ensures r.Ok? <==> forall k :: 0 <= k < |paths| ==> FromKnapsackFile(paths[k]).Ok?
    ensures r.Ok? ==> |r.value| == |paths| && forall k :: 0 <= k < |paths| ==> FromKnapsackFile(paths[k]) == Ok(r.value[k])
    ensures r.Err? ==> exists k :: 0 <= k < |paths| && r.error == InvalidTestFile(paths[k])
                                   && forall j :: 0 <= j < k ==> FromKnapsackFile(paths[j]).Ok?
  {
    var r := Traverse(paths, FromKnapsackFile);
    TraverseOk(paths, FromKnapsackFile);
    if r.Ok? then
      TraverseValues(paths, FromKnapsackFile);
      r
    else
      TraverseError(paths, FromKnapsackFile);
      r
  }

  /** The response to a cold-start or poll request: a successful status and
      a body with `test_files`, every path of which decodes. */
  function FilesReply(resp: Response): (r: Result<seq<Test>, Error>)
    ensures r.Ok? <==> resp.Http? && IsSuccess(resp.status) && resp.body.Json? && resp.body.testFiles.Some?
                       && DecodeAll(resp.body.testFiles.value).Ok?
    ensures r.Ok? ==> r == DecodeAll(resp.body.testFiles.value)
    ensures CheckStatus(resp).Err? ==> r == Err(CheckStatus(resp).error)
    ensures resp.Http? && IsSuccess(resp.status) && (resp.body.NotJson? || resp.body.testFiles.None?) ==>
              r == Err(MalformedResponse)
    ensures resp.Http? && IsSuccess(resp.status) && resp.body.Json? && resp.body.testFiles.Some? ==>
              r == DecodeAll(resp.body.testFiles.value)
  {
    var body :- CheckStatus(resp);
    match body
    case NotJson => Err(MalformedResponse)
    case Json(_, files) =>
      match files
      case None => Err(MalformedResponse)
      case Some(paths) => DecodeAll(paths)
  }

  /** The response to the connect attempt: the sentinel yields no tests;
      anything else is read exactly as a cold-start or poll response. */
  function ConnectReply(resp: Response): (r: Result<Option<seq<Test>>, Error>)
    ensures r == Ok(None) <==> IsSentinel(resp)
    ensures !IsSentinel(resp) && FilesReply(resp).Ok? ==> r == Ok(Some(FilesReply(resp).value))
    ensures !IsSentinel(resp) && FilesReply(resp).Err? ==> r == Err(FilesReply(resp).error)
  {
    var body :- CheckStatus(resp);
    match body
    case NotJson => Err(MalformedResponse)
    case Json(code, files) =>
      if code == Some(AttemptConnectFailed) then Ok(None)
      else
        match files
        case None => Err(MalformedResponse)
        case Some(paths) =>
          var tests :- DecodeAll(paths);
          Ok(Some(tests))
  }

  /** `initialize_queue_1`: the connect attempt. */
  function InitializeQueue1(c: Client, server: Server, trace: seq<Request>): Exchange<Option<seq<Test>>> {
    match ReadCoordinates(c.ci)
    case Err(e) => Exchange([], Err(e))
    case Ok(co) =>
      var req := ConnectRequest(c, co);
      Exchange([req], ConnectReply(server(trace, req)))
  }

  /** The cold-start request, built in the source's order: the test finder
      is consulted after the branch and before the commit hash. */
  function ColdStartRequestFor(c: Client, inventory: Result<seq<Test>, Error>): Result<Request, Error> {
    var total :- WithStep(NodeTotalStep, NodeTotal(c.ci));
    var index :- WithStep(NodeIndexStep, NodeIndex(c.ci));
    var branch :- WithStep(BranchStep, Branch(c.ci));
    var tests :- inventory;
    var commit :- WithStep(CommitHashStep, CommitHash(c.ci));
    Ok(ColdStartRequest(c, Coordinates(total, index, branch, commit), tests))
  }

  /** `initialize_queue_2`: the cold start with the full inventory. */
  function InitializeQueue2(c: Client, server: Server, trace: seq<Request>, inventory: Result<seq<Test>, Error>): Exchange<seq<Test>> {
    match ColdStartRequestFor(c, inventory)
    case Err(e) => Exchange([], Err(e))
    case Ok(req) => Exchange([req], FilesReply(server(trace, req)))
  }

  /** `initialize_queue_3`: a poll. */
  function InitializeQueue3(c: Client, server: Server, trace: seq<Request>): Exchange<seq<Test>> {
    match ReadCoordinates(c.ci)
    case Err(e) => Exchange([], Err(e))
    case Ok(co) =>
      var req := PollRequest(c, co);
      Exchange([req], FilesReply(server(trace, req)))
  }

  /** `get_tests`. The flag is set before any request is made, so a failed
      first call still leaves the client polling. On the first call the
      connect attempt is made; only its sentinel leads to the one cold-start
      request, carrying the inventory; later calls poll. */
  function GetTests(c: Client, server: Server, trace: seq<Request>, inventory: Result<seq<Test>, Error>): (r: Fetch)
    ensures r.client == c.(initialized := true)
    ensures ReadCoordinates(c.ci).Err? ==> r.sent == [] && r.result == Err(ReadCoordinates(c.ci).error)
    ensures ReadCoordinates(c.ci).Ok? && c.initialized ==>
      var poll := PollRequest(c, ReadCoordinates(c.ci).value);
      r.sent == [poll] && r.result == FilesReply(server(trace, poll))
    ensures ReadCoordinates(c.ci).Ok? && !c.initialized ==>
      var connect := ConnectRequest(c, ReadCoordinates(c.ci).value);
      && |r.sent| >= 1 && r.sent[0] == connect
      && (!IsSentinel(server(trace, connect)) ==>
            r.sent == [connect] && r.result == FilesReply(server(trace, connect)))
      && (IsSentinel(server(trace, connect)) && inventory.Err? ==>
            r.sent == [connect] && r.result == Err(inventory.error))
      && (IsSentinel(server(trace, connect)) && inventory.Ok? ==>
            var cold := ColdStartRequest(c, ReadCoordinates(c.ci).value, inventory.value);
            r.sent == [connect, cold] && r.result == FilesReply(server(trace + [connect], cold)))
  {
    if !c.initialized then
      var c' := c.(initialized := true);
      var first := InitializeQueue1(c', server, trace);
      match first.result
      case Err(e) => Fetch(c', first.sent, Err(e))
      case Ok(Some(tests)) => Fetch(c', first.sent, Ok(tests))
      case Ok(None) =>
        var second := InitializeQueue2(c', server, trace + first.sent, inventory);
        Fetch(c', first.sent + second.sent, second.result)
    else
      var poll := InitializeQueue3(c, server, trace);
      Fetch(c, poll.sent, poll.result)
  }

  /** Every request `get_tests` sends goes to the queue endpoint with the
      suite token and the wrapper's coordinates; at most two are sent, and a
      successful call has read all coordinates. */
  lemma GetTestsWire(c: Client, server: Server, trace: seq<Request>, inventory: Result<seq<Test>, Error>)
    ensures var r := GetTests(c, server, trace, inventory);
      && |r.sent| <= 2
      && (r.result.Ok? ==> ReadCoordinates(c.ci).Ok? && |r.sent| >= 1)
      && forall k :: 0 <= k < |r.sent| ==>
        && r.sent[k].QueueRequest?
        && r.sent[k].url == c.endpoint + QueuePath
        && r.sent[k].token == c.apiKey
        && ReadCoordinates(c.ci).Ok?
        && var co := ReadCoordinates(c.ci).value;
        && r.sent[k].queue.nodeTotal == co.nodeTotal
        && r.sent[k].queue.nodeIndex == co.nodeIndex
        && r.sent[k].queue.branch == co.branch
        && r.sent[k].queue.commitHash == co.commitHash
        && r.sent[k].queue.nodeBuildId == NodeBuildId(c.ci)
        && r.sent[k].queue.fixedQueueSplit == IsFixedQueueSplit(c.ci)
  {
  }

  /** A successful non-sentinel answer to the connect attempt is returned
      directly: the test finder is not consulted, so the inventory does not
      matter. */
  lemma ConnectAnswerSkipsFinder(c: Client, server: Server, trace: seq<Request>,
                                 inv1: Result<seq<Test>, Error>, inv2: Result<seq<Test>, Error>)
    requires !c.initialized && ReadCoordinates(c.ci).Ok?
    requires !IsSentinel(server(trace, ConnectRequest(c, ReadCoordinates(c.ci).value)))
    ensures GetTests(c, server, trace, inv1) == GetTests(c, server, trace, inv2)
    ensures |GetTests(c, server, trace, inv1).sent| == 1
  {
  }

  /** After any call, even a failed one, the client only ever polls. */
  lemma LaterCallsPoll(c: Client, server: Server, trace: seq<Request>, inventory: Result<seq<Test>, Error>,
                       server': Server, trace': seq<Request>, inventory': Result<seq<Test>, Error>)
    ensures var c' := GetTests(c, server, trace, inventory).client;
      var r := GetTests(c', server', trace', inventory');
      && c'.initialized
      && |r.sent| <= 1
      && forall k :: 0 <= k < |r.sent| ==>
        && r.sent[k].QueueRequest?
        && !r.sent[k].queue.canInitializeQueue
        && !r.sent[k].queue.attemptConnectToQueue
        && r.sent[k].queue.testFiles.None?
  {
  }

  /** An empty `test_files` list is an empty batch, not an error. */
  lemma EmptyListIsEmptyBatch(c: Client, server: Server, trace: seq<Request>, inventory: Result<seq<Test>, Error>)
    requires c.initialized && ReadCoordinates(c.ci).Ok?
    requires var resp := server(trace, PollRequest(c, ReadCoordinates(c.ci).value));
      resp.Http? && IsSuccess(resp.status) && resp.body.Json? && resp.body.testFiles == Some([])
    ensures GetTests(c, server, trace, inventory).result == Ok([])
  {
  }

  /** A call returns tests only when the last response had a 2xx status and
      a `test_files` list whose every path decodes, and then it returns
      exactly their decodings, in response order. */
  lemma {:induction false} TestsOnlyFromGoodReplies(c: Client, server: Server, trace: seq<Request>, inventory: Result<seq<Test>, Error>)
    ensures var r := GetTests(c, server, trace, inventory);
      r.result.Ok? ==>
        && |r.sent| >= 1
        && var resp := server(trace + r.sent[..|r.sent| - 1], r.sent[|r.sent| - 1]);
        && resp.Http? && IsSuccess(resp.status) && resp.body.Json? && resp.body.testFiles.Some?
        && var paths := resp.body.testFiles.value;
        && |r.result.value| == |paths|
        && forall k :: 0 <= k < |paths| ==> FromKnapsackFile(paths[k]) == Ok(r.result.value[k])
  {
    var r := GetTests(c, server, trace, inventory);
    if r.result.Ok? {
      GetTestsWire(c, server, trace, inventory);
      var co := ReadCoordinates(c.ci).value;
      if |r.sent| == 2 {
        assert r.sent[..1] == [ConnectRequest(c, co)];
      } else {
        assert r.sent[..0] == [];
        assert trace + [] == trace;
      }
    }
  }

  /** `upload_test_results`' body: one entry per result, in order. */
  function TimedFiles(results: seq<TestResult>): (r: seq<TimedFile>)
    ensures |r| == |results|
    ensures forall k :: 0 <= k < |results| ==>
      r[k] == TimedFile(ToKnapsackFile(results[k].test), results[k].execTime)
  {
    seq(|results|, k requires 0 <= k < |results| => TimedFile(ToKnapsackFile(results[k].test), results[k].execTime))
  }

  function UploadRequest(c: Client, co: Coordinates, results: seq<TestResult>): Request {
    SubsetRequest(c.endpoint + BuildSubsetsPath, c.apiKey,
      SubsetBody(co.commitHash, co.branch, co.nodeTotal, co.nodeIndex, TimedFiles(results)))
  }

  /** `upload_test_results`: one request to the build-subsets endpoint
      carrying the coordinates (no build id and no queue flags) and the
      timed results; only a 2xx status succeeds, and the body is ignored. */
  function UploadTestResults(c: Client, server: Server, trace: seq<Request>, results: seq<TestResult>): (r: Exchange<()>)
    ensures ReadCoordinates(c.ci).Err? ==> r.sent == [] && r.result == Err(ReadCoordinates(c.ci).error)
    ensures ReadCoordinates(c.ci).Ok? ==> r.sent == [UploadRequest(c, ReadCoordinates(c.ci).value, results)]
    ensures r.result.Ok? <==> |r.sent| == 1 && server(trace, r.sent[0]).Http? && IsSuccess(server(trace, r.sent[0]).status)
    ensures ReadCoordinates(c.ci).Ok? && r.result.Err? ==> |r.sent| == 1 && r.result.error == CheckStatus(server(trace, r.sent[0])).error
  {
    match ReadCoordinates(c.ci)
    case Err(e) => Exchange([], Err(e))
    case Ok(co) =>
      var req := UploadRequest(c, co, results);
      match CheckStatus(server(trace, req))
      case Err(e) => Exchange([req], Err(e))
      case Ok(_) => Exchange([req], Ok(()))
  }

  function Paths(files: seq<TimedFile>): (r: seq<string>)
    ensures |r| == |files|
    ensures forall k :: 0 <= k < |files| ==> r[k] == files[k].path
  {
    seq(|files|, k requires 0 <= k < |files| => files[k].path)
  }

  function TestsOf(results: seq<TestResult>): (r: seq<Test>)
    ensures |r| == |results|
    ensures forall k :: 0 <= k < |results| ==> r[k] == results[k].test
  {
    seq(|results|, k requires 0 <= k < |results| => results[k].test)
  }

  /** The uploaded paths decode back to the tests that produced the results,
      when those tests are wire-safe and on one line. */
  lemma UploadedPathsDecode(results: seq<TestResult>)
    requires forall k :: 0 <= k < |results| ==> WireSafe(results[k].test) && '\n' !in ToKnapsackFile(results[k].test)
    ensures DecodeAll(Paths(TimedFiles(results))) == Ok(TestsOf(results))
  {
    var paths := Paths(TimedFiles(results));
    var tests := TestsOf(results);
    forall k | 0 <= k < |paths| ensures FromKnapsackFile(paths[k]) == Ok(tests[k]) {
      KnapsackFileRoundTrip(results[k].test);
    }
    var r := DecodeAll(paths);
    assert r.Ok?;
    assert r.value == tests by {
      forall k | 0 <= k < |paths| ensures r.value[k] == tests[k] {
        assert FromKnapsackFile(paths[k]) == Ok(r.value[k]);
      }
    }
  }

  /** Nothing compares node index with node total: any pair supplied by the
      provider is sent as is. */
  lemma IndexNotCheckedAgainstTotal(env: Env, total: Usize, index: Usize, branch: string, commit: string)
    ensures var w := CiProviderWrapper(CiProvider(Some(total), Some(index), None, Some(commit), false, Some(branch)), env);
      ReadCoordinates(w) == Ok(Coordinates(total, index, branch, commit))
  {
  }
}
