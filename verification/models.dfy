/** The test identity (`src/models.rs`): a test is a (package, binary,
    test-name) triple, with a pipe-joined wire token, a runner display
    name and a runner filter. */
module Models {
  import opened Results
  import opened Errors

  /** An `f64` duration carried through unchanged; nothing here computes with it. */
  type Seconds = real

  datatype Test = Test(packageName: string, binaryName: string, testName: string)

  datatype TestResult = TestResult(test: Test, execTime: Seconds)

  /** `to_knapsack_file`: the three fields joined by `|`, with no escaping. */
  function ToKnapsackFile(t: Test): string {
    t.packageName + "|" + t.binaryName + "|" + t.testName
  }

  /** The fields the decoder can always recover: the last two hold no `|`. */
  predicate WireSafe(t: Test) {
    '|' !in t.binaryName && '|' !in t.testName
  }

  predicate HasTwoPipes(s: string) {
    exists i, j :: 0 <= i < j < |s| && s[i] == '|' && s[j] == '|'
  }

  function LastIndexOf(s: string, c: char): (r: int)
    ensures -1 <= r < |s|
    ensures r >= 0 ==> s[r] == c
    ensures forall k :: r < k < |s| ==> s[k] != c
    decreases |s|
  {
    if |s| == 0 then -1
    else if s[|s| - 1] == c then |s| - 1
    else LastIndexOf(s[..|s| - 1], c)
  }

  function FirstIndexOf(s: string, c: char): (r: nat)
    ensures r <= |s|
    ensures r < |s| ==> s[r] == c
    ensures forall k :: 0 <= k < r ==> s[k] != c
    decreases |s|
  {
    if |s| == 0 then 0
    else if s[0] == c then 0
    else 1 + FirstIndexOf(s[1..], c)
  }

  /** The last occurrence is the only occurrence with nothing like it after. */
  lemma LastIndexIsUnique(s: string, c: char, k: int)
    requires 0 <= k < |s| && s[k] == c
    requires forall m :: k < m < |s| ==> s[m] != c
    ensures LastIndexOf(s, c) == k
  {
  }

  /** The regex `(.*)\|(.*)\|(.*)` matched against a line holding no `\n`:
      both `.*` are greedy, so the last two pipes are the structural ones. */
  function SplitLine(line: string): (r: Option<Test>)
    ensures r.Some? <==> HasTwoPipes(line)
    ensures r.Some? ==> WireSafe(r.value) && ToKnapsackFile(r.value) == line
  {
    var j := LastIndexOf(line, '|');
    if j < 0 then None
    else
      var i := LastIndexOf(line[..j], '|');
      if i < 0 then
        assert forall a :: 0 <= a < j && line[a] == '|' ==> line[..j][a] == '|';
        None
      else
        var t := Test(line[..i], line[i + 1..j], line[j + 1..]);
        assert line[..j] == line[..i] + "|" + line[i + 1..j];
        assert line == line[..j] + "|" + line[j + 1..];
        assert '|' !in t.binaryName by {
          forall m | 0 <= m < |t.binaryName| ensures t.binaryName[m] != '|' {
            assert t.binaryName[m] == line[..j][i + 1 + m];
          }
        }
        assert '|' !in t.testName by {
          forall m | 0 <= m < |t.testName| ensures t.testName[m] != '|' {
            assert t.testName[m] == line[j + 1 + m];
          }
        }
        Some(t)
  }

  /** On a wire-safe test the split finds exactly the pipes the encoder wrote. */
  lemma SplitLineOfEncoding(t: Test)
    requires WireSafe(t)
    ensures SplitLine(ToKnapsackFile(t)) == Some(t)
  {
    var p, b, n := t.packageName, t.binaryName, t.testName;
    var head := p + "|" + b;
    var s := head + "|" + n;
    assert s == ToKnapsackFile(t);
    var j := |head|;
    forall m | j < m < |s| ensures s[m] != '|' {
      assert s[m] == n[m - j - 1];
    }
    LastIndexIsUnique(s, '|', j);
    assert s[..j] == head;
    forall m | |p| < m < |head| ensures head[m] != '|' {
      assert head[m] == b[m - |p| - 1];
    }
    LastIndexIsUnique(head, '|', |p|);
    assert s[..|p|] == p;
    assert s[|p| + 1..j] == b;
    assert s[j + 1..] == n;
  }

  /** The unanchored search: `.` does not match `\n`, so the leftmost match
      is the split of the first line that holds two pipes. */
  function FirstMatch(s: string): (r: Option<Test>)
    ensures r.Some? ==> WireSafe(r.value) && '\n' !in ToKnapsackFile(r.value)
    ensures '\n' !in s ==> (r.Some? <==> HasTwoPipes(s))
    ensures '\n' !in s && r.Some? ==> ToKnapsackFile(r.value) == s
    decreases |s|
  {
    var k := FirstIndexOf(s, '\n');
    assert '\n' !in s[..k] by {
      forall m | 0 <= m < k ensures s[..k][m] != '\n' {
      }
    }
    assert '\n' !in s ==> k == |s| && s[..k] == s;
    match SplitLine(s[..k])
    case Some(t) => Some(t)
    case None => if k == |s| then None else FirstMatch(s[k + 1..])
  }

  /** `from_knapsack_file`. A token of one line decodes exactly when it holds
      at least two pipes, and then into the unique wire-safe test that
      encodes back to it; any further pipes stay in the package name. */
  function FromKnapsackFile(s: string): (r: Result<Test, Error>)
    ensures r.Err? ==> r.error == InvalidTestFile(s)
    ensures r.Ok? ==> WireSafe(r.value) && '\n' !in ToKnapsackFile(r.value)
    ensures '\n' !in s ==> (r.Ok? <==> HasTwoPipes(s))
    ensures '\n' !in s && r.Ok? ==> ToKnapsackFile(r.value) == s
  {
    match FirstMatch(s)
    case Some(t) => Ok(t)
    case None => Err(InvalidTestFile(s))
  }

  /** Encoding is injective on wire-safe tests. */
  lemma EncodingInjective(a: Test, b: Test)
    requires WireSafe(a) && WireSafe(b)
    requires ToKnapsackFile(a) == ToKnapsackFile(b)
    ensures a == b
  {
    SplitLineOfEncoding(a);
    SplitLineOfEncoding(b);
  }

  /** Round trip: a wire-safe test on one line decodes back to itself
      (the package name may hold pipes). */
  lemma KnapsackFileRoundTrip(t: Test)
    requires WireSafe(t)
    requires '\n' !in ToKnapsackFile(t)
    ensures FromKnapsackFile(ToKnapsackFile(t)) == Ok(t)
  {
    var s := ToKnapsackFile(t);
    assert HasTwoPipes(s) by {
      assert s[|t.packageName|] == '|';
      assert s[|t.packageName| + 1 + |t.binaryName|] == '|';
    }
    EncodingInjective(FromKnapsackFile(s).value, t);
  }

  /** Reverse round trip: every one-line token with two pipes is re-encoded verbatim. */
  lemma KnapsackFileReverseRoundTrip(s: string)
    requires '\n' !in s && HasTwoPipes(s)
    ensures FromKnapsackFile(s).Ok?
    ensures ToKnapsackFile(FromKnapsackFile(s).value) == s
  {
  }

  /** A token with four segments is accepted; the extra pipe joins the package. */
  lemma FourSegmentsAccepted()
    ensures FromKnapsackFile("a|b|c|d") == Ok(Test("a|b", "c", "d"))
  {
    var t := Test("a|b", "c", "d");
    assert ToKnapsackFile(t) == "a|b|c|d";
    KnapsackFileRoundTrip(t);
  }

  /** A line without two pipes is skipped; one with two pipes decides the result. */
  lemma FirstMatchSkipsLines(line: string, rest: string)
    requires '\n' !in line
    ensures HasTwoPipes(line) ==> FirstMatch(line + "\n" + rest) == SplitLine(line)
    ensures !HasTwoPipes(line) ==> FirstMatch(line + "\n" + rest) == FirstMatch(rest)
  {
    var s := line + "\n" + rest;
    var k := FirstIndexOf(s, '\n');
    assert s[|line|] == '\n';
    assert k == |line|;
    assert s[..k] == line;
    assert s[k + 1..] == rest;
  }

  /** `to_nextest_name`: `package::binary$test`. */
  function ToNextestName(t: Test): string {
    t.packageName + "::" + t.binaryName + "$" + t.testName
  }

  /** `to_nextest_filter`: an `-E` flag and a filter expression naming the
      package and the exact test name (the binary does not appear). */
  function ToNextestFilter(t: Test): (r: seq<string>)
    ensures |r| == 2 && r[0] == "-E"
  {
    ["-E", "package(" + t.packageName + ") & test(=" + t.testName + ")"]
  }

  /** Two tests that differ only in their binary get the same filter. */
  lemma FilterIgnoresBinary(a: Test, b: Test)
    requires a.packageName == b.packageName && a.testName == b.testName
    ensures ToNextestFilter(a) == ToNextestFilter(b)
  {
  }

  /** If x + y == x' + y', neither x nor x' holds c and both y and y' start
      with c, then the two splits agree. */
  lemma SplitAtFirst(x: string, y: string, x': string, y': string, c: char)
    requires x + y == x' + y'
    requires c !in x && c !in x'
    requires |y| > 0 && y[0] == c && |y'| > 0 && y'[0] == c
    ensures x == x' && y == y'
  {
    assert x == (x + y)[..|x|];
    assert x' == (x' + y')[..|x'|];
    assert y == (x + y)[|x|..];
  }

  /** The filter names the package and the test exactly: for packages
      holding no `)` (true of Cargo package names), equal filters mean equal
      package and test names. */
  lemma FilterDeterminesPackageAndTest(a: Test, b: Test)
    requires ')' !in a.packageName && ')' !in b.packageName
    requires ToNextestFilter(a) == ToNextestFilter(b)
    ensures a.packageName == b.packageName && a.testName == b.testName
  {
    var xa, xb := "package(" + a.packageName, "package(" + b.packageName;
    var ya, yb := ") & test(=" + a.testName + ")", ") & test(=" + b.testName + ")";
    assert ToNextestFilter(a)[1] == xa + ya;
    assert ToNextestFilter(b)[1] == xb + yb;
    assert ')' !in xa && ')' !in xb;
    SplitAtFirst(xa, ya, xb, yb, ')');
    assert a.packageName == xa[8..] && b.packageName == xb[8..];
    assert a.testName == ya[10..|ya| - 1] && b.testName == yb[10..|yb| - 1];
  }

  /** Nextest names identify tests whose package holds no `:` and whose
      binary holds no `$` (true of Cargo package and target names). */
  lemma NextestNameInjective(a: Test, b: Test)
    requires ':' !in a.packageName && ':' !in b.packageName
    requires '$' !in a.binaryName && '$' !in b.binaryName
    requires ToNextestName(a) == ToNextestName(b)
    ensures a == b
  {
    var ya := "::" + a.binaryName + "$" + a.testName;
    var yb := "::" + b.binaryName + "$" + b.testName;
    assert ToNextestName(a) == a.packageName + ya;
    assert ToNextestName(b) == b.packageName + yb;
    SplitAtFirst(a.packageName, ya, b.packageName, yb, ':');
    assert ya[2..] == a.binaryName + ("$" + a.testName);
    assert yb[2..] == b.binaryName + ("$" + b.testName);
    SplitAtFirst(a.binaryName, "$" + a.testName, b.binaryName, "$" + b.testName, '$');
    assert a.testName == ("$" + a.testName)[1..];
    assert b.testName == ("$" + b.testName)[1..];
  }

  /** The derived `Ord` on strings: lexicographic by character. */
  predicate StringLess(a: string, b: string)
    decreases |a|
  {
    if |a| == 0 then |b| > 0
    else if |b| == 0 then false
    else a[0] < b[0] || (a[0] == b[0] && StringLess(a[1..], b[1..]))
  }

  /** The derived `Ord` on `Test`: lexicographic by (package, binary, test name). */
  predicate TestLess(a: Test, b: Test) {
    || StringLess(a.packageName, b.packageName)
    || (a.packageName == b.packageName && StringLess(a.binaryName, b.binaryName))
    || (a.packageName == b.packageName && a.binaryName == b.binaryName
        && StringLess(a.testName, b.testName))
  }

  lemma {:induction false} StringLessStrictTotal(a: string, b: string, c: string)
    ensures !StringLess(a, a)
    ensures a != b ==> StringLess(a, b) || StringLess(b, a)
    ensures StringLess(a, b) ==> !StringLess(b, a)
    ensures StringLess(a, b) && StringLess(b, c) ==> StringLess(a, c)
    decreases |a|
  {
    if |a| > 0 && |b| > 0 && |c| > 0 {
      StringLessStrictTotal(a[1..], b[1..], c[1..]);
      assert a != b && a[0] == b[0] ==> a[1..] != b[1..] by {
        if a[0] == b[0] && a[1..] == b[1..] {
          assert a == [a[0]] + a[1..] && b == [b[0]] + b[1..];
        }
      }
    } else if |a| > 0 && |b| > 0 {
      StringLessStrictTotal(a[1..], b[1..], b[1..]);
      assert a != b && a[0] == b[0] ==> a[1..] != b[1..] by {
        if a[0] == b[0] && a[1..] == b[1..] {
          assert a == [a[0]] + a[1..] && b == [b[0]] + b[1..];
        }
      }
    } else if |a| > 0 {
      StringLessStrictTotal(a[1..], a[1..], a[1..]);
    }
  }

  /** The derived order on tests is a strict total order. */
  lemma TestLessStrictTotal(a: Test, b: Test, c: Test)
    ensures !TestLess(a, a)
    ensures a != b ==> TestLess(a, b) || TestLess(b, a)
    ensures TestLess(a, b) ==> !TestLess(b, a)
    ensures TestLess(a, b) && TestLess(b, c) ==> TestLess(a, c)
  {
    StringLessStrictTotal(a.packageName, b.packageName, c.packageName);
    StringLessStrictTotal(a.binaryName, b.binaryName, c.binaryName);
    StringLessStrictTotal(a.testName, b.testName, c.testName);
    StringLessStrictTotal(b.packageName, a.packageName, c.packageName);
    StringLessStrictTotal(b.binaryName, a.binaryName, c.binaryName);
    StringLessStrictTotal(b.testName, a.testName, c.testName);
  }
}
