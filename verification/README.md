# cargo-nextest-knapsack client core, modelled in Dafny

This project models the client side of the Knapsack Pro queue-mode test
splitter for `cargo nextest`, and proves properties of that model.

A CI node runs the client in a loop:
- it asks the queue service for a batch of tests;
- it runs the batch with nextest;
- it correlates the runner's JSON events back to the requested tests;
- after the first empty batch, it uploads all timings in one request.

Everything outside the process becomes a parameter:
- **Server.** The queue service is a function from (requests sent so far, this request) to a response. A response is either transport failure or a status with a classified body.
- **Environment.** The process environment is a `map<string, string>`.
- **Test listing.** The listing of the workspace is an `Option` of suites.
- **Runner.** The nextest subprocess is a function from (batch number, filter arguments) to an execution.

The client's `initialized` flag is explicit state, returned by every call.

| module | file | models |
|---|---|---|
| `Results` | results.dfy | `Option` / `Result` with early return (`:-`), and a loop that stops at the first failure |
| `Errors` | errors.dfy | one constructor per failure the source reports through `anyhow` |
| `UsizeFromStr` | usize_from_str.dfy | Rust's `str::parse::<usize>` on a 64-bit target |
| `Models` | models.rs → models.dfy | `Test`, the pipe token codec, nextest names and filters, the derived order |
| `CiProviders` | ci_provider_base.rs, ci_provider_wrapper.rs → ci_provider_wrapper.dfy | the provider record and the wrapper's environment fallbacks |
| `GithubActions` | github_actions.rs → github_actions.dfy | the GitHub Actions provider as a function of the environment |
| `KnapsackClient` | knapsack_client.rs → knapsack_client.dfy | request records, response classification, `get_tests`, `upload_test_results` |
| `ClientScenarios` | knapsack_client.rs (tests) → client_scenarios.dfy | the client's three unit tests restated as lemmas |
| `TestContext` | test_context.rs → test_context.dfy | suite flattening, filter arguments, event correlation |
| `RunLoop` | main.rs → run_loop.dfy | `main`: token check, fetch/run loop, the final upload |

## Token format

Decoding a wire token searches it with the unanchored regex `(.*)\|(.*)\|(.*)`, whose groups are greedy:
- The last two pipes of the matched line are structural: they separate package, binary and test name.
- A token with four or more segments is accepted. The extra pipes stay in the package name (`Models.FourSegmentsAccepted`).
- Rust's `.` does not match `\n`. A token holding line breaks therefore decodes to the split of its first line that holds two pipes (`Models.FirstMatch`, `Models.FirstMatchSkipsLines`).
- On a one-line token this is simply the greedy split (`Models.SplitLine`).

## Model

| member | source | states |
|---|---|---|
| Models.SplitLine | src/models.rs:33-42 | a one-line token splits exactly when it holds two pipes, into a test whose binary and name hold no pipe and which re-encodes to the token |
| Models.SplitLineOfEncoding | src/models.rs:11-43 | splitting the encoding of a test with pipe-free binary and name finds exactly the two pipes the encoder wrote |
| Models.ToKnapsackFile | src/models.rs:11-16 | the pipe-joined token; `EncodingInjective`, `KnapsackFileRoundTrip` and `SplitLineOfEncoding` state that it is injective on wire-safe tests and that decoding inverts it |
| Models.FirstMatch | src/models.rs:33-36 | the unanchored search: any match is pipe-safe and on one line; on a one-line input it matches iff two pipes are present, and the match re-encodes to the input |
| Models.FromKnapsackFile | src/models.rs:32-43 | decoding fails only with the offending token; on one-line tokens it succeeds iff there are at least two pipes, and the result encodes back to the token |
| Models.EncodingInjective | src/models.rs:11-16 | two tests with pipe-free binaries and names and the same token are equal |
| Models.KnapsackFileRoundTrip | src/models.rs:11-43 | decoding the encoding gives the test back when its binary and name hold no pipe (the package may) and the token has no line break |
| Models.KnapsackFileReverseRoundTrip | src/models.rs:11-43 | every one-line token with at least two pipes decodes, and re-encoding gives the token back verbatim |
| Models.FourSegmentsAccepted | src/models.rs:33-42 | the pipe-joined token of `a`, `b`, `c`, `d` is accepted: binary `c`, test `d`, and the package is `a` and `b` joined by their pipe |
| Models.FirstMatchSkipsLines | src/models.rs:33-36 | a first line with two pipes decides the result; a first line without them is skipped |
| Models.ToNextestFilter | src/models.rs:25-30 | the filter is two arguments and the first is `-E` |
| Models.ToNextestName | src/models.rs:18-23 | `package::binary$test`; `NextestNameInjective` states that it identifies the test, and `LookupByName` that run output is matched by it |
| Models.FilterIgnoresBinary | src/models.rs:25-30 | the binary name does not affect the filter |
| Models.FilterDeterminesPackageAndTest | src/models.rs:25-30 | for packages without `)`, equal filters mean equal package and equal test name |
| Models.NextestNameInjective | src/models.rs:18-23 | `package::binary$test` identifies the test when the package holds no `:` and the binary no `$` |
| Models.StringLessStrictTotal | src/models.rs:3 | the derived string order is irreflexive, total on distinct strings, asymmetric and transitive |
| Models.TestLessStrictTotal | src/models.rs:3-8 | the derived lexicographic order on (package, binary, test) is a strict total order |
| UsizeFromStr.ParseUsize | src/ci_providers/ci_provider_wrapper.rs:53-56 | a string is accepted iff it is a non-empty run of digits, after at most one leading `+`, whose value fits in 64 bits; the value is that of the digits; the error is `Empty` exactly for the empty string, and a lone sign is an invalid digit |
| UsizeFromStr.ParseDecimalString | src/ci_providers/ci_provider_wrapper.rs:53-56 | parsing the decimal rendering of any 64-bit value, with or without `+`, gives the value |
| UsizeFromStr.ParseIsCanonical | src/ci_providers/ci_provider_wrapper.rs:53-56 | an accepted canonical digit string is the rendering of its value |
| UsizeFromStr.ParseRejectsOverflow | src/ci_providers/ci_provider_wrapper.rs:53-56 | a well-formed decimal above 2^64-1 is rejected as a positive overflow |
| UsizeFromStr.ParseFirstFailure | src/ci_providers/ci_provider_wrapper.rs:53-56 | the first position where the scan fails decides the error: a non-digit there is an invalid digit, and a digit that takes the value past 2^64-1 is a positive overflow |
| UsizeFromStr.ParseLeadingZeros | src/ci_providers/ci_provider_wrapper.rs:53-56 | any number of leading zeros before a decimal rendering, with or without `+`, is accepted with the rendered value |
| UsizeFromStr.ParseIsPaddedRendering | src/ci_providers/ci_provider_wrapper.rs:53-56 | conversely, every accepted string is, after an optional `+`, some zeros followed by the rendering of its value |
| CiProviders.UsizeFromEnv | src/ci_providers/ci_provider_wrapper.rs:50-68 | a missing variable is its own error; otherwise the value is used iff it parses as a `usize`, and a bad value is reported with the variable name and the kind of parse error (empty, invalid digit, overflow) |
| CiProviders.NodeBuildId | src/ci_providers/ci_provider_wrapper.rs:13-18 | the build id never fails: provider, else `KNAPSACK_PRO_CI_NODE_BUILD_ID`, else `missing-build-id` |
| CiProviders.NodeIndex | src/ci_providers/ci_provider_wrapper.rs:20-25 | the provider's index when present, else the environment variable's |
| CiProviders.NodeTotal | src/ci_providers/ci_provider_wrapper.rs:27-32 | the provider's total when present, else the environment variable's |
| CiProviders.Branch | src/ci_providers/ci_provider_wrapper.rs:38-42 | the branch fails exactly when the provider has none |
| CiProviders.CommitHash | src/ci_providers/ci_provider_wrapper.rs:44-48 | the commit fails exactly when the provider has none |
| CiProviders.IsFixedQueueSplit | src/ci_providers/ci_provider_wrapper.rs:34-36 | the provider's flag, passed through; `NoEnvFallbackForBranchOrCommit` states that the environment does not affect it |
| CiProviders.ProviderValueIgnoresEnv | src/ci_providers/ci_provider_wrapper.rs:20-32 | a provider-supplied index and total do not depend on the environment |
| CiProviders.NoEnvFallbackForBranchOrCommit | src/ci_providers/ci_provider_wrapper.rs:34-48 | branch, commit and the fixed-split flag are the provider's alone, whatever the environment |
| CiProviders.IndexFromEnvRoundTrip | src/ci_providers/ci_provider_wrapper.rs:60-68 | an index written in decimal in the environment is read back exactly |
| GithubActions.GithubActionsProvider | src/ci_providers/github_actions.rs:5-31 | no total or index; split always fixed; build id, commit and branch present iff their variables are, with the ref preferred over the SHA for the branch |
| GithubActions.GithubNodeCoordinatesFromEnv | src/ci_providers/github_actions.rs:6-12 | under GitHub Actions, total and index always come from the `KNAPSACK_PRO_*` variables and succeed iff those parse |
| GithubActions.GithubBuildId | src/ci_providers/github_actions.rs:14-16 | build id is `GITHUB_RUN_ID`, else `KNAPSACK_PRO_CI_NODE_BUILD_ID`, else the sentinel |
| GithubActions.GithubBranchWhenCommitKnown | src/ci_providers/github_actions.rs:18-30 | whenever the commit is known, so is the branch |
| KnapsackClient.New | src/knapsack_client.rs:30-43 | a new client is uninitialized and keeps endpoint, key and wrapper |
| KnapsackClient.ReadCoordinates | src/knapsack_client.rs:59-77 | coordinates succeed iff all four reads do; they are read in the order total, index, branch, commit, and the first failing read is reported with its own step and error |
| KnapsackClient.CheckStatus | src/knapsack_client.rs:103-112 | a response passes iff it arrived with a 2xx status, and then its body is read; a transport failure is `RequestFailed`, and any other status is `UnsuccessfulStatus` carrying that status |
| Results.TraverseOk | src/knapsack_client.rs:293-302 | the decode loop with early return succeeds exactly when every element succeeds |
| Results.TraverseValues | src/knapsack_client.rs:293-302 | after a successful loop, each collected value is the success of the element at that position |
| Results.TraverseError | src/knapsack_client.rs:293-302 | a failed loop reports the failure of the first failing element: every element before it succeeded |
| KnapsackClient.DecodeAll | src/knapsack_client.rs:127-136 | decoding succeeds iff every path decodes; then it keeps order and length; otherwise the error is that of the first undecodable path |
| KnapsackClient.FilesReply | src/knapsack_client.rs:215-228 | tests are returned iff status is 2xx, the body has `test_files`, and all of them decode; otherwise the error is the status check's, `MalformedResponse` for a 2xx body that is not JSON or has no `test_files`, or the decoding's error naming the first bad path |
| KnapsackClient.ConnectReply | src/knapsack_client.rs:105-137 | the connect answer yields "no tests" iff it is the 2xx sentinel; anything else is read as a files reply |
| KnapsackClient.InitializeQueue1 | src/knapsack_client.rs:58-138 | the connect attempt; `GetTests` states what it sends and returns on a fresh client, and `ShouldInitializeQueue` replays the source's test of it |
| KnapsackClient.InitializeQueue2 | src/knapsack_client.rs:140-229 | the cold start with the test inventory; `GetTests` states that it follows only a sentinel answer and returns the decoded reply, and `ShouldHandleInitializedQueue` replays the source's test of it |
| KnapsackClient.InitializeQueue3 | src/knapsack_client.rs:231-303 | a poll; `LaterCallsPoll` and `TestsOnlyFromGoodReplies` state that every later call sends one flag-free request and returns its decoded answer |
| KnapsackClient.GetTests | src/knapsack_client.rs:45-56 | the flag is set on every call; a coordinate failure sends nothing; an initialized client polls once; a fresh one connects and sends the cold start (with the inventory) only after the sentinel |
| KnapsackClient.GetTestsWire | src/knapsack_client.rs:79-101 | at most two requests, all to the queue path with the suite token, the coordinates, the build id and the split flag |
| KnapsackClient.ConnectAnswerSkipsFinder | src/knapsack_client.rs:49-50 | after a non-sentinel connect answer the inventory is not consulted and one request was sent |
| KnapsackClient.LaterCallsPoll | src/knapsack_client.rs:45-56 | after any call, even a failed one, every later call sends at most one request, with both flags false and no test list |
| KnapsackClient.EmptyListIsEmptyBatch | src/knapsack_client.rs:293-302 | an empty `test_files` list is an empty batch, not an error |
| KnapsackClient.TestsOnlyFromGoodReplies | src/knapsack_client.rs:282-302 | tests are returned only from a 2xx reply with `test_files`; they are exactly the decodings of those paths, in order |
| KnapsackClient.TimedFiles | src/knapsack_client.rs:326-336 | one entry per result, in order, with the encoded test and its time |
| KnapsackClient.UploadTestResults | src/knapsack_client.rs:305-373 | with coordinates, exactly one build-subsets request with the timed files; it succeeds iff that request got a 2xx answer, and otherwise fails with the status check's error; without coordinates nothing is sent and the coordinate error is returned |
| KnapsackClient.UploadedPathsDecode | src/knapsack_client.rs:326-336 | the uploaded paths decode back to the tests that produced the results |
| KnapsackClient.IndexNotCheckedAgainstTotal | src/knapsack_client.rs:58-88 | any index/total pair from the provider is used as is, even an index above the total |
| ClientScenarios.ShouldInitializeQueue | src/knapsack_client.rs:383-432 | a fresh client sends only the connect request and returns the answer's test |
| ClientScenarios.ShouldHandleInitializedQueue | src/knapsack_client.rs:434-508 | after the sentinel, the cold-start request carries the finder's test and its answer is returned |
| ClientScenarios.ShouldGetAdditionalTests | src/knapsack_client.rs:510-560 | an initialized client sends one poll and returns its test |
| TestContext.FlattenSpec | src/test_context.rs:35-43 | one test per test case, in listing order: case `k` of suite `i` sits right after the cases of the suites before it; so a test is listed iff a suite with its package and binary lists its name |
| TestContext.Flatten | src/test_context.rs:35-43 | the nested walk over suites and their cases; its content and order are stated by `FlattenSpec` |
| TestContext.FindTests | src/test_context.rs:24-48 | a failed listing is an error; otherwise there is one test per case, in listing order, and exactly the listed tests occur |
| TestContext.FilterArgsLayout | src/test_context.rs:56-60 | the arguments are twice as many as the tests, and pair k is test k's filter |
| TestContext.FilterArgs | src/test_context.rs:56-60 | the concatenated filters; their layout is stated by `FilterArgsLayout` |
| TestContext.LookupByName | src/test_context.rs:51-54 | the name map finds a test with that nextest name iff one was requested; among duplicates the last one wins |
| TestContext.CorrelateSpec | src/test_context.rs:91-108 | correlation succeeds iff every line is JSON and every `ok` event names a requested test; then there is one result per `ok` event, in order, with that test and time |
| TestContext.CorrelatePass | src/test_context.rs:95-106 | an `ok` event needs its test, then correlation continues |
| TestContext.CorrelateSkip | src/test_context.rs:95 | any other event is skipped |
| TestContext.Correlate | src/test_context.rs:91-108 | the line-by-line loop with early return; `CorrelateSpec` states when it succeeds and what it yields, and `CorrelatePass` and `CorrelateSkip` state its two steps |
| TestContext.RunTests | src/test_context.rs:80-110 | a runner that does not start, or exits unsuccessfully, fails before any output is read; after a successful exit the result is the correlation of its output: it succeeds iff every line is JSON and every `ok` event names a requested test, and then result k is the k-th `ok` event's test and time |
| TestContext.NonPassingEventsIgnored | src/test_context.rs:95 | a failed or ignored event changes nothing |
| RunLoop.Main | src/main.rs:13-27 | without the suite token, or without prepared workspace metadata, no request is sent and nothing runs |
| RunLoop.Iterate | src/main.rs:31-41 | one turn of the loop: `get_tests`, then the rest of the turn in `Advance`; `IterateContinues`, `IterateStops` and `IterateAnswers` state what it does |
| RunLoop.Advance | src/main.rs:32-43 | stop on a failed fetch, upload and stop on an empty batch, otherwise run the batch; `StopOnFetchError`, `StopOnRunFailure`, `StopOnEmptyBatch` and `AdvanceAnswers` state each case |
| RunLoop.Loop | src/main.rs:31-43 | the loop, driven with fuel; `LoopShape` and `LoopAnswers` state what every run of it looks like |
| RunLoop.GetTestsKeepsWire | src/knapsack_client.rs:45-56 | `get_tests` keeps every request a queue request with the client's token, and only the first attempts to connect |
| RunLoop.IterateContinues | src/main.rs:31-41 | a non-empty batch that ran keeps the loop invariant and extends the run by exactly the requests `get_tests` sent, the batch it returned, and that batch's results, after the earlier ones |
| RunLoop.StopOnFetchError | src/main.rs:32 | a failed fetch ends the run with that failure and without upload: the fetch's requests are added, and no batch is fetched or run |
| RunLoop.StopOnRunFailure | src/main.rs:38-39 | a failed batch ends the run with the runner's failure and without upload; that batch, as returned by `get_tests`, is the last fetched and run |
| RunLoop.StopOnEmptyBatch | src/main.rs:34-43 | an empty batch is fetched but not run; the results stay those gathered so far; the run's requests are exactly the fetch's followed by one upload of those results with the client's coordinates, and the run completes iff that upload is answered with 2xx, failing otherwise with the upload's error |
| RunLoop.AdvanceUploads | src/main.rs:34-43 | after an empty batch the loop sends nothing but the one upload of the results so far, with the client's coordinates, and the upload's answer alone decides completion |
| RunLoop.IterateStops | src/main.rs:31-43 | every way of leaving the loop leaves a run of the shape below |
| RunLoop.LoopShape | src/main.rs:29-43 | every run of the loop: executed batches non-empty; only a final empty batch unexecuted; an upload exactly then, as the last request, carrying the concatenated per-batch results; completion iff that upload got 2xx |
| RunLoop.MainShape | src/main.rs:13-46 | every run of `main` has that shape, and every request carries the suite token from the environment |
| RunLoop.IterateAnswers | src/knapsack_client.rs:45-56 | an iteration of an initialized client sends at most one poll, and the batch it logs, if any, is the decoded answer to that poll |
| RunLoop.LoopAnswers | src/main.rs:31-41 | once the client polls, every batch the loop fetches is the decoded answer to its own poll, whatever the loop does after |
| RunLoop.FirstIterateAnswers | src/main.rs:31-32 | the first iteration on a fresh client sends the connect request and, after a sentinel answer, the cold start; a batch it returns is the decoded answer to the last of these, and a failure ends the run with it |
| RunLoop.FreshLoop | src/main.rs:29-43 | a loop started with a fresh client begins with the requests of its first `get_tests`, its first batch is that call's answer, and every batch it fetches is the decoded answer to its request, shifted by one after a cold start |
| RunLoop.MainAnswers | src/main.rs:13-46 | every batch `main` fetches is the decoded answer of the queue to its request, so no test is dropped or invented between `get_tests` and the runner |
| RunLoop.MainFirstFetch | src/main.rs:13-32 | with the suite token, prepared workspace metadata and any fuel, `main` does drive the loop: its requests begin with the first `get_tests`'s, a batch that call returns is the run's first, and its failure ends the run with that failure |

## Left out

- HTTP transport: client building, the client-name and client-version headers, and `execute` become the server function. Builder failures cannot occur in the model. Transport failure is the `Unreachable` response.
- JSON: bodies are records. The response body is classified as not JSON, or JSON with the string `code` and the `test_files` paths when those have the expected shape. The error text of a non-2xx response is not kept.
- Subprocesses: `DefaultTestContext::new` and the two metadata preparations are one boolean, `prepared`. Listing is an `Option` of suites in listing order. Spawning nextest is the runner function.
- `src/test_finder.rs` and `src/test_runner.rs`: not part of this model. `main` does not use them.
- Runner output: a line is either unparsable or an event with `type`, `event`, `name` and `exec_time`. A field the line lacks is a placeholder, read only on a line whose `type` is `test` and whose `event` is `ok`. The source panics (`unwrap`) on three kinds of line, and the model has none of them:
  - a JSON line without `type`;
  - a `test` line without `event`;
  - a passing-test line whose `name` is missing or not a string, or whose `exec_time` is missing or not a number.
  Every other line that lacks these fields, such as suite events and `started` events, is skipped, and so it is in the model.
- The runner is a total function: it always returns. In the source, stdout is piped (src/test_context.rs:65) and the child is waited for (line 82) before that pipe is drained (line 89). A runner whose output fills the pipe buffer would then block forever. The model has no such run.
- `exec_time` is an `f64` copied through as `real`. Nothing computes with it.
- Environment values that are not Unicode are not modelled; the map holds strings.
- `println!` logging is left out.
- RunLoop.Main: the source loop is unbounded, so the model takes fuel and reports running out of it as its own outcome, `OutOfFuel`. A run that stops for any other reason is fully described.
- Models.ToNextestFilter: the contract pins only the shape. The filter's content is stated by the `FilterIgnoresBinary` and `FilterDeterminesPackageAndTest` lemmas, and the latter needs packages without `)`.
- Models.NextestNameInjective: stated only for packages without `:` and binaries without `$`. Without those conditions two tests can share a nextest name; the name map then keeps the last (`TestContext.LookupByName`).
- UsizeFromStr.ParseUsize: `usize` is taken as 64 bits. Rust's `ParseIntError` also has `NegOverflow` and `Zero` kinds; unsigned parsing never produces them, so the model omits them.
