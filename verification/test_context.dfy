/** The pure slice of the runner gateway (`src/test_context.rs`):
    flattening the listing into tests, building the filter arguments, and
    correlating the runner's events back to the requested tests. The
    listing and the runner themselves are subprocesses and appear here only
    as their outputs. */
module TestContext {
  import opened Results
  import opened Errors
  import opened Models

  /** One binary of the listing with the names of its test cases, in listing order. */
  datatype Suite = Suite(packageName: string, binaryName: string, testCases: seq<string>)

  /** One line of the runner's `libtest-json` output: either text that is
      not JSON, or an event with its `type`, `event`, `name` and `exec_time`.
      A field the line lacks is a placeholder here; it is read only when
      `type` is `test` and `event` is `ok`, as in the source, which panics
      on a JSON line without `type`, a `test` line without `event`, and a
      passing-test line whose `name` is missing or not a
      string, or whose `exec_time` is missing or not a number. Lines that would
      panic have no counterpart here. */
  datatype Line =
    | Unparsable(text: string)
    | Event(kind: string, event: string, name: string, execTime: Seconds)

  /** What the runner subprocess did. */
  datatype Execution = NotStarted | Finished(success: bool, stdout: seq<Line>)

  function SuiteTests(s: Suite): (r: seq<Test>)
    ensures |r| == |s.testCases|
    ensures forall k :: 0 <= k < |r| ==> r[k] == Test(s.packageName, s.binaryName, s.testCases[k])
  {
    seq(|s.testCases|, k requires 0 <= k < |s.testCases| => Test(s.packageName, s.binaryName, s.testCases[k]))
  }

  function CaseCount(suites: seq<Suite>): nat {
    if suites == [] then 0 else CaseCount(suites[..|suites| - 1]) + |suites[|suites| - 1].testCases|
  }

  /** One test per (suite, test case), suite by suite, in listing order. */
  function Flatten(suites: seq<Suite>): seq<Test> {
    if suites == [] then [] else Flatten(suites[..|suites| - 1]) + SuiteTests(suites[|suites| - 1])
  }

  predicate Listed(suites: seq<Suite>, t: Test) {
    exists i :: 0 <= i < |suites| && suites[i].packageName == t.packageName
      && suites[i].binaryName == t.binaryName && t.testName in suites[i].testCases
  }

  /** The cases of the suites before suite `i` come before its own. */
  lemma {:induction false} CaseCountPrefix(suites: seq<Suite>, i: nat)
    requires i < |suites|
    ensures CaseCount(suites[..i]) + |suites[i].testCases| <= CaseCount(suites)
    decreases |suites|
  {
    var init := suites[..|suites| - 1];
    if i == |suites| - 1 {
      assert suites[..i] == init;
    } else {
      assert suites[..i] == init[..i];
      CaseCountPrefix(init, i);
    }
  }

  /** The flattening has one entry per test case: case `k` of suite `i`
      sits right after the cases of the suites before it. So it holds
      exactly the tests whose package and binary come from a suite listing
      their name. */
  lemma FlattenSpec(suites: seq<Suite>)
    ensures |Flatten(suites)| == CaseCount(suites)
    ensures InListingOrder(suites, Flatten(suites))
    ensures forall t :: t in Flatten(suites) <==> Listed(suites, t)
  {
    FlattenInOrder(suites);
    FlattenListed(suites);
  }

  /** Case `k` of suite `i` sits right after the cases of the suites before it. */
  ghost predicate InListingOrder(suites: seq<Suite>, tests: seq<Test>) {
    forall i, k :: 0 <= i < |suites| && 0 <= k < |suites[i].testCases| ==>
      && CaseCount(suites[..i]) + k < |tests|
      && tests[CaseCount(suites[..i]) + k] == Test(suites[i].packageName, suites[i].binaryName, suites[i].testCases[k])
  }

  lemma {:induction false} FlattenInOrder(suites: seq<Suite>)
    ensures |Flatten(suites)| == CaseCount(suites)
    ensures InListingOrder(suites, Flatten(suites))
    decreases |suites|
  {
    if suites != [] {
      var init := suites[..|suites| - 1];
      FlattenInOrder(init);
      forall i, k | 0 <= i < |suites| && 0 <= k < |suites[i].testCases|
        ensures && CaseCount(suites[..i]) + k < |Flatten(suites)|
                && Flatten(suites)[CaseCount(suites[..i]) + k] == Test(suites[i].packageName, suites[i].binaryName, suites[i].testCases[k])
      {
        if i == |suites| - 1 {
          assert suites[..i] == init;
        } else {
          assert suites[..i] == init[..i];
          assert suites[i] == init[i];
          CaseCountPrefix(init, i);
        }
      }
    }
  }

  lemma {:induction false} FlattenListed(suites: seq<Suite>)
    ensures forall t :: t in Flatten(suites) <==> Listed(suites, t)
    decreases |suites|
  {
    if suites != [] {
      var init := suites[..|suites| - 1];
      var last := suites[|suites| - 1];
      FlattenListed(init);
      forall t ensures t in Flatten(suites) <==> Listed(suites, t) {
        if t in SuiteTests(last) {
          var k :| 0 <= k < |SuiteTests(last)| && SuiteTests(last)[k] == t;
          assert last.testCases[k] == t.testName;
        }
        if Listed(init, t) {
          var i :| 0 <= i < |init| && init[i].packageName == t.packageName
            && init[i].binaryName == t.binaryName && t.testName in init[i].testCases;
          assert suites[i] == init[i];
        }
        if Listed(suites, t) {
          var i :| 0 <= i < |suites| && suites[i].packageName == t.packageName
            && suites[i].binaryName == t.binaryName && t.testName in suites[i].testCases;
          if i == |suites| - 1 {
            var k :| 0 <= k < |last.testCases| && last.testCases[k] == t.testName;
            assert SuiteTests(last)[k] == t;
          } else {
            assert init[i] == suites[i];
          }
        }
      }
    }
  }

  /** `find_tests`: a failed listing is an error; otherwise the flattening. */
  function FindTests(listing: Option<seq<Suite>>): (r: Result<seq<Test>, Error>)
    ensures r.Err? <==> listing.None?
    ensures r.Err? ==> r.error == FindTestsFailed
    ensures r.Ok? ==> forall t :: t in r.value <==> Listed(listing.value, t)
    ensures r.Ok? ==> |r.value| == CaseCount(listing.value)
    ensures r.Ok? ==> InListingOrder(listing.value, r.value)
  {
    match listing
    case None => Err(FindTestsFailed)
    case Some(suites) => FlattenSpec(suites); Ok(Flatten(suites))
  }

  /** The arguments `run_tests` appends: each test's filter, in order. */
  function FilterArgs(tests: seq<Test>): (r: seq<string>)
    decreases |tests|
  {
    if tests == [] then [] else FilterArgs(tests[..|tests| - 1]) + ToNextestFilter(tests[|tests| - 1])
  }

  /** Two arguments per test: pair k is exactly the filter of test k. */
  lemma {:induction false} FilterArgsLayout(tests: seq<Test>)
    ensures |FilterArgs(tests)| == 2 * |tests|
    ensures forall k :: 0 <= k < |tests| ==> FilterArgs(tests)[2 * k..2 * k + 2] == ToNextestFilter(tests[k])
    decreases |tests|
  {
    if tests != [] {
      var init := tests[..|tests| - 1];
      FilterArgsLayout(init);
      var r := FilterArgs(tests);
      forall k | 0 <= k < |tests| ensures r[2 * k..2 * k + 2] == ToNextestFilter(tests[k]) {
        if k < |init| {
          assert r[2 * k..2 * k + 2] == FilterArgs(init)[2 * k..2 * k + 2];
          assert tests[k] == init[k];
        }
      }
    }
  }

  /** The name-to-test map of `run_tests`: collected in order, so among
      requested tests sharing a name the last one wins. */
  function LookupByName(tests: seq<Test>, name: string): (r: Option<Test>)
    ensures r.Some? ==> ToNextestName(r.value) == name
    ensures r.None? <==> forall k :: 0 <= k < |tests| ==> ToNextestName(tests[k]) != name
    ensures r.Some? ==> exists k :: (0 <= k < |tests| && tests[k] == r.value
      && forall m :: k < m < |tests| ==> ToNextestName(tests[m]) != name)
    decreases |tests|
  {
    if tests == [] then None
    else
      var last := tests[|tests| - 1];
      if ToNextestName(last) == name then Some(last)
      else
        var r := LookupByName(tests[..|tests| - 1], name);
        assert forall k :: 0 <= k < |tests| - 1 ==> tests[..|tests| - 1][k] == tests[k];
        r
  }

  /** Correlation of the output lines with the requested tests: a line that
      is not JSON, or a passing test that was not requested, fails the whole
      call; other events are skipped. */
  function Correlate(tests: seq<Test>, lines: seq<Line>): Result<seq<TestResult>, Error>
    decreases |lines|
  {
    if lines == [] then Ok([])
    else match lines[0]
      case Unparsable(text) => Err(InvalidEventLine(text))
      case Event(kind, event, name, execTime) =>
        if kind == "test" && event == "ok" then
          match LookupByName(tests, name)
          case None => Err(UnknownTest(name))
          case Some(t) =>
            var rest :- Correlate(tests, lines[1..]);
            Ok([TestResult(t, execTime)] + rest)
        else Correlate(tests, lines[1..])
  }

  predicate IsPass(l: Line) {
    l.Event? && l.kind == "test" && l.event == "ok"
  }

  /** The passing-test events, in output order. */
  function Passes(lines: seq<Line>): (r: seq<Line>)
    ensures forall k :: 0 <= k < |r| ==> IsPass(r[k])
    decreases |lines|
  {
    if lines == [] then []
    else if IsPass(lines[0]) then [lines[0]] + Passes(lines[1..])
    else Passes(lines[1..])
  }

  predicate Requested(tests: seq<Test>, name: string) {
    exists k :: 0 <= k < |tests| && ToNextestName(tests[k]) == name
  }

  predicate AllJson(lines: seq<Line>) {
    forall k :: 0 <= k < |lines| ==> !lines[k].Unparsable?
  }

  predicate AllRequested(tests: seq<Test>, passes: seq<Line>) {
    forall k :: 0 <= k < |passes| ==> passes[k].Event? && Requested(tests, passes[k].name)
  }

  /** One result per passing event, in event order, carrying a requested
      test of that name and the event's execution time. */
  predicate MatchesPasses(tests: seq<Test>, passes: seq<Line>, rs: seq<TestResult>) {
    && |rs| == |passes|
    && forall k :: 0 <= k < |rs| ==>
      && rs[k].test in tests
      && passes[k].Event?
      && ToNextestName(rs[k].test) == passes[k].name
      && rs[k].execTime == passes[k].execTime
  }

  /** What correlation promises: it succeeds exactly when every line is JSON
      and every passing event names a requested test, and then its results
      match the passing events one for one. */
  ghost predicate CorrelateMeetsSpec(tests: seq<Test>, lines: seq<Line>) {
    && (Correlate(tests, lines).Ok? <==> AllJson(lines) && AllRequested(tests, Passes(lines)))
    && (Correlate(tests, lines).Ok? ==> MatchesPasses(tests, Passes(lines), Correlate(tests, lines).value))
  }

  lemma AllJsonCons(lines: seq<Line>)
    requires lines != []
    ensures AllJson(lines) <==> !lines[0].Unparsable? && AllJson(lines[1..])
  {
    if !lines[0].Unparsable? && AllJson(lines[1..]) {
      forall k | 0 < k < |lines| ensures !lines[k].Unparsable? {
        assert lines[k] == lines[1..][k - 1];
      }
    }
  }

  lemma AllRequestedCons(tests: seq<Test>, p: Line, passes: seq<Line>)
    requires p.Event?
    ensures AllRequested(tests, [p] + passes) <==> Requested(tests, p.name) && AllRequested(tests, passes)
  {
    var ps := [p] + passes;
    assert ps[0] == p;
    if AllRequested(tests, ps) {
      forall k | 0 <= k < |passes| ensures passes[k].Event? && Requested(tests, passes[k].name) {
        assert passes[k] == ps[k + 1];
      }
    }
    if Requested(tests, p.name) && AllRequested(tests, passes) {
      forall k | 0 <= k < |ps| ensures ps[k].Event? && Requested(tests, ps[k].name) {
        if k > 0 {
          assert ps[k] == passes[k - 1];
        }
      }
    }
  }

  lemma MatchesPassesCons(tests: seq<Test>, p: Line, passes: seq<Line>, r: TestResult, rs: seq<TestResult>)
    requires p.Event? && r.test in tests && ToNextestName(r.test) == p.name && r.execTime == p.execTime
    requires MatchesPasses(tests, passes, rs)
    ensures MatchesPasses(tests, [p] + passes, [r] + rs)
  {
    var ps := [p] + passes;
    var rs' := [r] + rs;
    forall k | 1 <= k < |rs'| ensures rs'[k] == rs[k - 1] && ps[k] == passes[k - 1] { }
  }

  /** A passing event: correlation needs its test and then the rest. */
  lemma CorrelatePass(tests: seq<Test>, lines: seq<Line>)
    requires lines != [] && IsPass(lines[0])
    requires CorrelateMeetsSpec(tests, lines[1..])
    ensures CorrelateMeetsSpec(tests, lines)
  {
    var rest := lines[1..];
    assert Passes(lines) == [lines[0]] + Passes(rest);
    AllJsonCons(lines);
    AllRequestedCons(tests, lines[0], Passes(rest));
    var found := LookupByName(tests, lines[0].name);
    if found.Some? {
      assert Requested(tests, lines[0].name);
      if Correlate(tests, rest).Ok? {
        MatchesPassesCons(tests, lines[0], Passes(rest), TestResult(found.value, lines[0].execTime), Correlate(tests, rest).value);
      }
    }
  }

  /** Any other event is skipped. */
  lemma CorrelateSkip(tests: seq<Test>, lines: seq<Line>)
    requires lines != [] && !IsPass(lines[0])
    requires CorrelateMeetsSpec(tests, lines[1..])
    ensures CorrelateMeetsSpec(tests, lines)
  {
    AllJsonCons(lines);
  }

  lemma {:induction false} CorrelateSpec(tests: seq<Test>, lines: seq<Line>)
    ensures CorrelateMeetsSpec(tests, lines)
    decreases |lines|
  {
    if lines != [] {
      CorrelateSpec(tests, lines[1..]);
      if IsPass(lines[0]) {
        CorrelatePass(tests, lines);
      } else {
        CorrelateSkip(tests, lines);
      }
    }
  }

  /** `run_tests` given the runner: the filter arguments are handed to it; a
      runner that cannot start or exits unsuccessfully fails the call before
      any output is read. A runner that succeeds has its output correlated:
      the call fails on a line that is not JSON or a passing test that was
      not requested, and otherwise yields one result per passing event, in
      event order, with that event's test and time. */
  function RunTests(tests: seq<Test>, runner: seq<string> -> Execution): (r: Result<seq<TestResult>, Error>)
    ensures runner(FilterArgs(tests)).NotStarted? ==> r == Err(RunnerNotStarted)
    ensures runner(FilterArgs(tests)).Finished? && !runner(FilterArgs(tests)).success ==> r == Err(RunnerFailed)
    ensures r.Ok? ==> runner(FilterArgs(tests)).Finished? && runner(FilterArgs(tests)).success
    ensures runner(FilterArgs(tests)).Finished? && runner(FilterArgs(tests)).success ==>
      var out := runner(FilterArgs(tests)).stdout;
      && r == Correlate(tests, out)
      && (r.Ok? <==> AllJson(out) && AllRequested(tests, Passes(out)))
      && (r.Ok? ==> MatchesPasses(tests, Passes(out), r.value))
    ensures r.Ok? ==> |r.value| == |Passes(runner(FilterArgs(tests)).stdout)|
    ensures r.Ok? ==> forall k :: 0 <= k < |r.value| ==> r.value[k].test in tests
  {
    match runner(FilterArgs(tests))
    case NotStarted => Err(RunnerNotStarted)
    case Finished(success, stdout) =>
      if !success then Err(RunnerFailed)
      else CorrelateSpec(tests, stdout); Correlate(tests, stdout)
  }

  /** Failed and ignored tests produce no result: only passing events count. */
  lemma NonPassingEventsIgnored(tests: seq<Test>, l: Line, lines: seq<Line>)
    requires l.Event? && !IsPass(l)
    ensures Correlate(tests, [l] + lines) == Correlate(tests, lines)
  {
    assert ([l] + lines)[1..] == lines;
  }
}
