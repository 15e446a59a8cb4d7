/** The client's own unit tests (`src/knapsack_client.rs`, module `tests`)
    restated over the model: a provider with fixed coordinates, a finder
    that always returns one test, and a mock server that answers only the
    request it expects (any other request gets a 404 with a non-JSON body). */
module ClientScenarios {
  import opened Results
  import opened Errors
  import opened Models
  import opened CiProviders
  import opened KnapsackClient

  const MockUrl: string := "http://127.0.0.1:8080"
  const ApiKey: string := "test_api_key"

  /** The unit tests' `TestProvider`: four nodes, this is node 0. */
  function TestProvider(): CiProvider {
    CiProvider(Some(4), Some(0), Some("build_id"), Some("commit_hash"), true, Some("branch"))
  }

  function TestClient(initialized: bool): Client {
    Client(initialized, MockUrl, ApiKey, CiProviderWrapper(TestProvider(), map[]))
  }

  /** The unit tests' `TestTestFinder`. */
  const Inventory: Result<seq<Test>, Error> := Ok([Test("pn", "bn", "tn")])

  /** The request each mock matches: path, token header and exact body. */
  function Expected(canInit: bool, attempt: bool, files: Option<seq<string>>): Request {
    QueueRequest(MockUrl + "/v1/queues/queue", ApiKey,
      QueueBody(canInit, attempt, true, "commit_hash", "branch", 4, 0, "build_id", files))
  }

  function Mock(e1: Request, a1: Response, e2: Request, a2: Response): Server {
    (trace: seq<Request>, req: Request) => if req == e1 then a1 else if req == e2 then a2 else Http(404, NotJson)
  }

  function FilesBody(paths: seq<string>): Response {
    Http(200, Json(None, Some(paths)))
  }

  const Coords: Coordinates := Coordinates(4, 0, "branch", "commit_hash")

  lemma TestCoordinates(initialized: bool)
    ensures ReadCoordinates(TestClient(initialized).ci) == Ok(Coords)
    ensures NodeBuildId(TestClient(initialized).ci) == "build_id"
    ensures IsFixedQueueSplit(TestClient(initialized).ci)
  {
  }

  /** A one-path `test_files` answer that decodes to the one test it encodes. */
  lemma OnePathReply(p: string, b: string, n: string)
    requires '|' !in b && '|' !in n
    requires '\n' !in p && '\n' !in b && '\n' !in n
    ensures FilesReply(FilesBody([p + "|" + b + "|" + n])) == Ok([Test(p, b, n)])
  {
    var t := Test(p, b, n);
    var x := p + "|" + b + "|" + n;
    assert ToKnapsackFile(t) == x;
    KnapsackFileRoundTrip(t);
    assert FromKnapsackFile([x][0]) == Ok(t);
    var r := DecodeAll([x]);
    assert r.Ok?;
    assert r.value == [t];
  }

  /** `should_initialize_queue`: a fresh client sends exactly the connect
      request and returns the tests of its answer. */
  lemma ShouldInitializeQueue()
    ensures var connect := Expected(true, true, None);
      var server := Mock(connect, FilesBody(["a|b|c"]), connect, FilesBody(["a|b|c"]));
      var r := GetTests(TestClient(false), server, [], Inventory);
      && r.sent == [connect]
      && r.result == Ok([Test("a", "b", "c")])
      && r.client.initialized
  {
    var connect := Expected(true, true, None);
    var server := Mock(connect, FilesBody(["a|b|c"]), connect, FilesBody(["a|b|c"]));
    TestCoordinates(false);
    assert ConnectRequest(TestClient(false), Coords) == connect;
    assert server([], connect) == FilesBody(["a|b|c"]);
    assert "a" + "|" + "b" + "|" + "c" == "a|b|c";
    OnePathReply("a", "b", "c");
  }

  /** `should_handle_initialized_queue`: the sentinel answer leads to the
      cold-start request carrying the finder's test, whose answer is returned. */
  lemma ShouldHandleInitializedQueue()
    ensures var connect := Expected(true, true, None);
      var cold := Expected(true, false, Some(["pn|bn|tn"]));
      var server := Mock(connect, Http(200, Json(Some(AttemptConnectFailed), None)), cold, FilesBody(["pn|bn|tn"]));
      var r := GetTests(TestClient(false), server, [], Inventory);
      && r.sent == [connect, cold]
      && r.result == Ok([Test("pn", "bn", "tn")])
      && r.client.initialized
  {
    var connect := Expected(true, true, None);
    var cold := Expected(true, false, Some(["pn|bn|tn"]));
    var server := Mock(connect, Http(200, Json(Some(AttemptConnectFailed), None)), cold, FilesBody(["pn|bn|tn"]));
    TestCoordinates(false);
    assert ConnectRequest(TestClient(false), Coords) == connect;
    assert IsSentinel(server([], connect));
    assert "pn" + "|" + "bn" + "|" + "tn" == "pn|bn|tn";
    assert EncodeAll(Inventory.value) == ["pn|bn|tn"];
    assert ColdStartRequest(TestClient(false), Coords, Inventory.value) == cold;
    assert connect != cold;
    assert server([connect], cold) == FilesBody(["pn|bn|tn"]);
    OnePathReply("pn", "bn", "tn");
  }

  /** `should_get_additional_tests`: an initialized client polls. */
  lemma ShouldGetAdditionalTests()
    ensures var poll := Expected(false, false, None);
      var server := Mock(poll, FilesBody(["pn|bn|tn"]), poll, FilesBody(["pn|bn|tn"]));
      var r := GetTests(TestClient(true), server, [], Inventory);
      && r.sent == [poll]
      && r.result == Ok([Test("pn", "bn", "tn")])
      && r.client.initialized
  {
    var poll := Expected(false, false, None);
    var server := Mock(poll, FilesBody(["pn|bn|tn"]), poll, FilesBody(["pn|bn|tn"]));
    TestCoordinates(true);
    assert PollRequest(TestClient(true), Coords) == poll;
    assert server([], poll) == FilesBody(["pn|bn|tn"]);
    assert "pn" + "|" + "bn" + "|" + "tn" == "pn|bn|tn";
    OnePathReply("pn", "bn", "tn");
  }
}
