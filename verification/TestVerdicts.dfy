/**
 * The three verdicts of a tests-first step: baseline capture (src/verify/baseline.ts), RED (src/verify/red.ts) and
 * GREEN (src/verify/green.ts), and what they say together about every test.
 */
module TestVerdicts {
  import opened Wrappers

  type TestId = string
  type Path = string

  datatype Status = Passed | Failed | Skipped | Todo

  datatype Cause = MissingModule | MissingPackage | SyntaxError | Unknown

  datatype SuiteFailure = SuiteFailure(suitePath: Path, cause: Cause, message: string, specifier: Option<string>)

  datatype Results = Results(success: bool, exitCode: int, tests: map<TestId, Status>, suiteFailures: seq<SuiteFailure>)

  predicate Is(r: Results, id: TestId, s: Status) {
    id in r.tests && r.tests[id] == s
  }

  predicate RunnerOk(r: Results) {
    r.success && r.exitCode == 0
  }

  // ---------------------------------------------------------------- baseline

  datatype Policy = Policy(retryFailures: nat, knownFlaky: set<TestId>)

  datatype BaselineFailure =
    | ExpectedAlreadyExists(id: TestId)
    | TestFailed(id: TestId)
    | SuiteFailed(suitePath: Path, message: string)
    | RunnerFailed(exitCode: int)

  datatype BaselineStatus = Retry | Pass | Fail

  datatype BaselineVerdict = BaselineVerdict(status: BaselineStatus, warnings: set<TestId>, quarantined: set<TestId>,
                                             failures: set<BaselineFailure>)

  function FailedIds(r: Results): set<TestId> {
    set id | id in r.tests && r.tests[id] == Failed
  }

  function EverFailed(runs: seq<Results>): set<TestId> {
    if runs == [] then {} else FailedIds(runs[0]) + EverFailed(runs[1..])
  }

  function SuiteFailuresOf(r: Results): set<BaselineFailure> {
    set f | f in r.suiteFailures :: SuiteFailed(f.suitePath, f.message)
  }

  /** One run after another; the latest decides, the earlier ones only cause warnings. */
  function EvaluateBaselineRuns(runs: seq<Results>, policy: Policy, expected: seq<TestId>)
    : Result<BaselineVerdict, string>
  {
    if runs == [] then Err("baseline evaluation needs at least one run")
    else
      var latest := runs[|runs| - 1];
      var present := set id | id in expected && id in latest.tests;
      if present != {} then Ok(BaselineVerdict(Fail, {}, {}, set id | id in present :: ExpectedAlreadyExists(id)))
      else
        var failed := FailedIds(latest);
        var quarantined := failed * policy.knownFlaky;
        var failures := (set id | id in failed - policy.knownFlaky :: TestFailed(id)) + SuiteFailuresOf(latest)
                        + (if !RunnerOk(latest) && failed == {} && latest.suiteFailures == []
                           then {RunnerFailed(latest.exitCode)} else {});
        var warnings := set id | id in EverFailed(runs[..|runs| - 1]) && Is(latest, id, Passed);
        Ok(BaselineVerdict(
             if failures == {} then Pass else if |runs| <= policy.retryFailures then Retry else Fail,
             warnings, quarantined, failures))
  }

  predicate ShowsExpected(r: Results, expected: seq<TestId>) {
    exists id | id in expected :: id in r.tests
  }

  /** Only known flaky tests failed, every suite loaded, and the runner's own verdict is explained. */
  ghost predicate CleanRun(r: Results, policy: Policy) {
    && r.suiteFailures == []
    && (forall id | Is(r, id, Failed) :: id in policy.knownFlaky)
    && ((r.success && r.exitCode == 0) || exists id :: Is(r, id, Failed))
  }

  lemma BaselineStatusMeans(runs: seq<Results>, policy: Policy, expected: seq<TestId>)
    requires runs != []
    ensures var latest := runs[|runs| - 1];
            var status := EvaluateBaselineRuns(runs, policy, expected).value.status;
            && (status == Pass <==> !ShowsExpected(latest, expected) && CleanRun(latest, policy))
            && (status == Retry <==> !ShowsExpected(latest, expected) && !CleanRun(latest, policy)
                                     && |runs| <= policy.retryFailures)
  {
    var latest := runs[|runs| - 1];
    var present := set id | id in expected && id in latest.tests;
    if ShowsExpected(latest, expected) {
      var id :| id in expected && id in latest.tests;
      assert id in present;
    } else {
      assert present == {};
      var failed := FailedIds(latest);
      var verdict := EvaluateBaselineRuns(runs, policy, expected).value;
      assert forall id :: id in failed <==> Is(latest, id, Failed);
      if id :| id in failed && id !in policy.knownFlaky {
        assert TestFailed(id) in verdict.failures;
      } else if latest.suiteFailures != [] {
        assert latest.suiteFailures[0] in latest.suiteFailures;
        assert SuiteFailed(latest.suiteFailures[0].suitePath, latest.suiteFailures[0].message) in verdict.failures;
      } else {
        assert failed - policy.knownFlaky == {};
        assert SuiteFailuresOf(latest) == {};
        if failed != {} {
          var id :| id in failed;
          assert Is(latest, id, Failed);
        } else {
          assert forall id :: !Is(latest, id, Failed);
          assert !RunnerOk(latest) ==> RunnerFailed(latest.exitCode) in verdict.failures;
        }
      }
    }
  }

  lemma {:induction false} EverFailedMeans(runs: seq<Results>, id: TestId)
    ensures id in EverFailed(runs) <==> exists i | 0 <= i < |runs| :: Is(runs[i], id, Failed)
  {
    if runs != [] {
      EverFailedMeans(runs[1..], id);
      if i :| 0 <= i < |runs| && Is(runs[i], id, Failed) {
        assert i == 0 || runs[1..][i - 1] == runs[i];
      }
      if j :| 0 <= j < |runs[1..]| && Is(runs[1..][j], id, Failed) {
        assert runs[j + 1] == runs[1..][j];
      }
    }
  }

  /** Why a run without the expected tests is not good enough. */
  ghost predicate BaselineFailureHolds(r: Results, policy: Policy, f: BaselineFailure) {
    match f
    case ExpectedAlreadyExists(_) => false
    case TestFailed(id) => Is(r, id, Failed) && id !in policy.knownFlaky
    case SuiteFailed(suitePath, message) => exists s | s in r.suiteFailures :: s.suitePath == suitePath && s.message == message
    case RunnerFailed(exitCode) =>
      && exitCode == r.exitCode && !(r.success && r.exitCode == 0)
      && r.suiteFailures == [] && forall id :: !Is(r, id, Failed)
  }

  /** What a baseline verdict names: the tests that exist too early, or else what failed, what may fail and what is shaky. */
  lemma BaselineNames(runs: seq<Results>, policy: Policy, expected: seq<TestId>)
    requires runs != []
    ensures var latest := runs[|runs| - 1];
            var v := EvaluateBaselineRuns(runs, policy, expected).value;
            if ShowsExpected(latest, expected) then
              && v.status == Fail && v.warnings == {} && v.quarantined == {}
              && (forall f :: f in v.failures <==> f.ExpectedAlreadyExists? && f.id in expected && f.id in latest.tests)
            else
              && (forall f :: f in v.failures <==> BaselineFailureHolds(latest, policy, f))
              && (forall id :: id in v.quarantined <==> Is(latest, id, Failed) && id in policy.knownFlaky)
              && (forall id :: id in v.warnings <==>
                    Is(latest, id, Passed) && exists i | 0 <= i < |runs| - 1 :: Is(runs[i], id, Failed))
  {
    var latest := runs[|runs| - 1];
    var v := EvaluateBaselineRuns(runs, policy, expected).value;
    var present := set id | id in expected && id in latest.tests;
    if ShowsExpected(latest, expected) {
      var id :| id in expected && id in latest.tests;
      assert id in present;
    } else {
      assert present == {};
      assert forall id :: id in FailedIds(latest) <==> Is(latest, id, Failed);
      forall id ensures id in v.warnings <==> Is(latest, id, Passed) && exists i | 0 <= i < |runs| - 1 :: Is(runs[i], id, Failed) {
        EverFailedMeans(runs[..|runs| - 1], id);
        assert forall i | 0 <= i < |runs| - 1 :: runs[..|runs| - 1][i] == runs[i];
      }
    }
  }

  datatype BaselineCapture = BaselineCapture(verdict: BaselineVerdict, attempts: nat, results: Results)

  function Runs(run: nat -> Results, n: nat): (r: seq<Results>)
    ensures |r| == n && forall i | 0 <= i < n :: r[i] == run(i + 1)
  {
    seq(n, i requires 0 <= i < n => run(i + 1))
  }

  /** Runs again while the verdict is to retry, at most `retryFailures + 1` times in all. */
  method CaptureBaseline(policy: Policy, expected: seq<TestId>, run: nat -> Results) returns (capture: BaselineCapture)
    ensures 1 <= capture.attempts <= policy.retryFailures + 1
    ensures capture.results == run(capture.attempts)
    ensures EvaluateBaselineRuns(Runs(run, capture.attempts), policy, expected) == Ok(capture.verdict)
    ensures capture.verdict.status != Retry
    ensures forall n | 1 <= n < capture.attempts ::
              EvaluateBaselineRuns(Runs(run, n), policy, expected).value.status == Retry
  {
    var runs: seq<Results> := [];
    while true
      invariant |runs| <= policy.retryFailures && runs == Runs(run, |runs|)
      invariant forall n | 1 <= n <= |runs| ::
                  EvaluateBaselineRuns(Runs(run, n), policy, expected).value.status == Retry
      decreases policy.retryFailures - |runs|
    {
      runs := runs + [run(|runs| + 1)];
      assert runs == Runs(run, |runs|);
      var verdict := EvaluateBaselineRuns(runs, policy, expected).value;
      BaselineStatusMeans(runs, policy, expected);
      if verdict.status != Retry {
        return BaselineCapture(verdict, |runs|, runs[|runs| - 1]);
      }
    }
  }

  /** The number of runs a capture makes: the first whose verdict is not to retry. */
  ghost predicate StopsAt(policy: Policy, expected: seq<TestId>, run: nat -> Results, n: nat) {
    && n >= 1
    && EvaluateBaselineRuns(Runs(run, n), policy, expected).value.status != Retry
    && forall k | 1 <= k < n :: EvaluateBaselineRuns(Runs(run, k), policy, expected).value.status == Retry
  }

  /** A capture passes exactly when some allowed run is clean and none up to it shows a test still to be written. */
  lemma CapturePassesWhen(policy: Policy, expected: seq<TestId>, run: nat -> Results, n: nat)
    requires StopsAt(policy, expected, run, n)
    ensures EvaluateBaselineRuns(Runs(run, n), policy, expected).value.status == Pass
            <==> exists k | 1 <= k <= policy.retryFailures + 1 ::
                   CleanRun(run(k), policy) && forall j | 1 <= j <= k :: !ShowsExpected(run(j), expected)
  {
    forall k | 1 <= k <= n
      ensures k == n || (!ShowsExpected(run(k), expected) && !CleanRun(run(k), policy) && k <= policy.retryFailures)
      ensures k == n ==> (EvaluateBaselineRuns(Runs(run, n), policy, expected).value.status == Pass
                          <==> !ShowsExpected(run(n), expected) && CleanRun(run(n), policy))
      ensures k == n ==> ShowsExpected(run(n), expected) || CleanRun(run(n), policy) || n > policy.retryFailures
    {
      BaselineStatusMeans(Runs(run, k), policy, expected);
    }
    if EvaluateBaselineRuns(Runs(run, n), policy, expected).value.status == Pass {
      assert n <= policy.retryFailures + 1 by {
        if n > 1 {
          assert !CleanRun(run(n - 1), policy);
        }
      }
      assert CleanRun(run(n), policy);
    }
    forall k | 1 <= k <= policy.retryFailures + 1 && CleanRun(run(k), policy)
               && forall j | 1 <= j <= k :: !ShowsExpected(run(j), expected)
      ensures EvaluateBaselineRuns(Runs(run, n), policy, expected).value.status == Pass
    {
      assert k >= n;
      assert !ShowsExpected(run(n), expected);
    }
  }

  // ---------------------------------------------------------------- RED

  datatype RedCategory = AssertionFailure | MissingImplementation

  datatype RedReason =
    | MissingDependency(package: Option<string>)
    | BrokenTestFile(suitePath: Path)
    | OutsideScope(specifier: string)
    | CategoryNotAllowed(category: RedCategory)
    | ExpectedTestPassing(id: TestId)
    | ExpectedTestsNotFailed
    | ExistingFailure(id: TestId)
    | RedSkip(id: TestId)
    | SuiteDidNotComplete(suitePath: Path)
    | NoRedResults

  /** `inScope` resolves a relative specifier against its suite and matches it against the implementation paths. */
  datatype RedContract = RedContract(expected: seq<TestId>, allowed: set<RedCategory>, inScope: (Path, string) -> bool)

  datatype RedVerdict = RedVerdict(valid: bool, category: Option<RedCategory>, reasons: seq<RedReason>)

  predicate MissingInScope(c: RedContract, f: SuiteFailure) {
    f.cause == MissingModule && f.specifier.Some? && c.inScope(f.suitePath, f.specifier.value)
  }

  function SuiteReason(c: RedContract, f: SuiteFailure): Option<RedReason> {
    if f.cause == MissingModule && f.specifier.Some? then
      if c.inScope(f.suitePath, f.specifier.value) then None else Some(OutsideScope(f.specifier.value))
    else if f.cause == MissingPackage then Some(MissingDependency(f.specifier))
    else if f.cause == SyntaxError then Some(BrokenTestFile(f.suitePath))
    else Some(SuiteDidNotComplete(f.suitePath))
  }

  /** What a suite failure is a reason for, cause by cause. */
  ghost predicate SuiteReasonHolds(c: RedContract, f: SuiteFailure, r: RedReason) {
    match r
    case OutsideScope(specifier) => f.cause == MissingModule && f.specifier == Some(specifier) && !c.inScope(f.suitePath, specifier)
    case MissingDependency(package) => f.cause == MissingPackage && package == f.specifier
    case BrokenTestFile(suitePath) => f.cause == SyntaxError && suitePath == f.suitePath
    case SuiteDidNotComplete(suitePath) =>
      suitePath == f.suitePath && (f.cause == Unknown || (f.cause == MissingModule && f.specifier.None?))
    case _ => false
  }

  method SuiteReasons(c: RedContract, failures: seq<SuiteFailure>) returns (reasons: seq<RedReason>, missing: bool)
    ensures forall r :: r in reasons <==> exists f | f in failures :: SuiteReasonHolds(c, f, r)
    ensures missing <==> exists f | f in failures :: MissingInScope(c, f)
  {
    reasons, missing := [], false;
    for i := 0 to |failures|
      invariant forall r :: r in reasons <==> exists f | f in failures[..i] :: SuiteReasonHolds(c, f, r)
      invariant missing <==> exists f | f in failures[..i] :: MissingInScope(c, f)
    {
      var f := failures[i];
      assert failures[..i + 1] == failures[..i] + [f];
      assert f in failures[..i + 1];
      if SuiteReason(c, f).Some? {
        reasons := reasons + [SuiteReason(c, f).value];
      } else {
        missing := true;
      }
    }
    assert failures[..|failures|] == failures;
  }

  method ExpectedPassing(results: Results, expected: seq<TestId>) returns (reasons: seq<RedReason>, allFailed: bool)
    ensures forall r :: r in reasons <==> exists id | id in expected :: r == ExpectedTestPassing(id) && Is(results, id, Passed)
    ensures allFailed <==> forall id | id in expected :: Is(results, id, Failed)
  {
    reasons, allFailed := [], true;
    for i := 0 to |expected|
      invariant forall r :: r in reasons <==>
                  exists id | id in expected[..i] :: r == ExpectedTestPassing(id) && Is(results, id, Passed)
      invariant allFailed <==> forall id | id in expected[..i] :: Is(results, id, Failed)
    {
      assert expected[..i + 1] == expected[..i] + [expected[i]];
      assert expected[i] in expected[..i + 1];
      if Is(results, expected[i], Passed) {
        reasons := reasons + [ExpectedTestPassing(expected[i])];
      }
      allFailed := allFailed && Is(results, expected[i], Failed);
    }
    assert expected[..|expected|] == expected;
  }

  ghost predicate Regressed(baseline: Results, results: Results, id: TestId, r: RedReason) {
    || (r == ExistingFailure(id) && Is(baseline, id, Passed) && Is(results, id, Failed))
    || (r == RedSkip(id) && id in baseline.tests && baseline.tests[id] != Skipped && Is(results, id, Skipped))
  }

  method RedRegressions(baseline: Results, results: Results) returns (reasons: seq<RedReason>)
    ensures forall r :: r in reasons <==> exists id | id in baseline.tests :: Regressed(baseline, results, id, r)
  {
    reasons := [];
    var left := baseline.tests.Keys;
    while left != {}
      invariant left <= baseline.tests.Keys
      invariant forall r :: r in reasons <==> exists id | id in baseline.tests.Keys - left :: Regressed(baseline, results, id, r)
      decreases left
    {
      var id :| id in left;
      ghost var seen := baseline.tests.Keys - left;
      left := left - {id};
      assert baseline.tests.Keys - left == seen + {id};
      if Is(baseline, id, Passed) && Is(results, id, Failed) {
        reasons := reasons + [ExistingFailure(id)];
      }
      if baseline.tests[id] != Skipped && Is(results, id, Skipped) {
        reasons := reasons + [RedSkip(id)];
      }
    }
    assert baseline.tests.Keys - left == baseline.tests.Keys;
  }

  function Category(missing: bool, allFailed: bool): Option<RedCategory> {
    if missing then Some(MissingImplementation) else if allFailed then Some(AssertionFailure) else None
  }

  ghost predicate SomeMissing(c: RedContract, r: Results) {
    exists f | f in r.suiteFailures :: MissingInScope(c, f)
  }

  ghost predicate AllFailed(r: Results, expected: seq<TestId>) {
    forall id | id in expected :: Is(r, id, Failed)
  }

  /** Every reason RED can be refused for, and nothing else. */
  ghost predicate RedReasonHolds(c: RedContract, baseline: Results, results: Results, r: RedReason) {
    || (exists f | f in results.suiteFailures :: SuiteReasonHolds(c, f, r))
    || (exists id | id in c.expected :: r == ExpectedTestPassing(id) && Is(results, id, Passed))
    || (r == ExpectedTestsNotFailed && !AllFailed(results, c.expected) && !SomeMissing(c, results)
        && forall id | id in c.expected :: !Is(results, id, Passed))
    || (exists id | id in baseline.tests :: Regressed(baseline, results, id, r))
    || (r.CategoryNotAllowed? && Category(SomeMissing(c, results), AllFailed(results, c.expected)) == Some(r.category)
        && r.category !in c.allowed)
  }

  method ClassifyRed(c: RedContract, baseline: Results, run: Option<Results>) returns (v: RedVerdict)
    ensures run.None? ==> v == RedVerdict(false, None, [NoRedResults])
    ensures run.Some? ==>
              && v.category == Category(SomeMissing(c, run.value), AllFailed(run.value, c.expected))
              && (forall r :: r in v.reasons <==> RedReasonHolds(c, baseline, run.value, r))
              && v.valid == (v.reasons == [] && v.category.Some?)
  {
    if run.None? {
      return RedVerdict(false, None, [NoRedResults]);
    }
    var results := run.value;
    var reasons, missing := SuiteReasons(c, results.suiteFailures);
    var passing, allFailed := ExpectedPassing(results, c.expected);
    var notFailed := [];
    if !allFailed && !missing && passing == [] {
      notFailed := [ExpectedTestsNotFailed];
    }
    assert passing == [] <==> forall id | id in c.expected :: !Is(results, id, Passed) by {
      assert forall id | id in c.expected && Is(results, id, Passed) :: ExpectedTestPassing(id) in passing;
      assert passing != [] ==> passing[0] in passing;
    }
    var regressions := RedRegressions(baseline, results);
    var category := Category(missing, allFailed);
    var disallowed := [];
    if category.Some? && category.value !in c.allowed {
      disallowed := [CategoryNotAllowed(category.value)];
    }
    assert SomeMissing(c, results) == missing && AllFailed(results, c.expected) == allFailed;
    reasons := reasons + passing + notFailed + regressions + disallowed;
    // No category without a reason, so the source's last fallback is never reached.
    assert category.None? ==> notFailed != [] || passing != [];
    return RedVerdict(reasons == [] && category.Some?, category, reasons);
  }

  /** A valid RED, in terms of the run alone. */
  ghost predicate RedIsValid(c: RedContract, baseline: Results, results: Results) {
    && (forall f | f in results.suiteFailures :: MissingInScope(c, f))
    && (forall id | id in c.expected :: !Is(results, id, Passed))
    && (if results.suiteFailures != [] then MissingImplementation in c.allowed
        else AssertionFailure in c.allowed && AllFailed(results, c.expected))
    && (forall id | Is(baseline, id, Passed) :: !Is(results, id, Failed))
    && (forall id | id in baseline.tests && baseline.tests[id] != Skipped :: !Is(results, id, Skipped))
  }

  lemma RedReasonWhenInvalid(c: RedContract, baseline: Results, results: Results) returns (r: RedReason)
    requires !RedIsValid(c, baseline, results)
    ensures RedReasonHolds(c, baseline, results, r)
  {
    if f :| f in results.suiteFailures && !MissingInScope(c, f) {
      return SuiteReason(c, f).value;
    }
    if id :| id in c.expected && Is(results, id, Passed) {
      return ExpectedTestPassing(id);
    }
    if id :| Is(baseline, id, Passed) && Is(results, id, Failed) {
      assert Regressed(baseline, results, id, ExistingFailure(id));
      return ExistingFailure(id);
    }
    if id :| id in baseline.tests && baseline.tests[id] != Skipped && Is(results, id, Skipped) {
      assert Regressed(baseline, results, id, RedSkip(id));
      return RedSkip(id);
    }
    if results.suiteFailures != [] {
      assert MissingInScope(c, results.suiteFailures[0]);
      assert SomeMissing(c, results);
      return CategoryNotAllowed(MissingImplementation);
    }
    assert !SomeMissing(c, results);
    return if AllFailed(results, c.expected) then CategoryNotAllowed(AssertionFailure) else ExpectedTestsNotFailed;
  }

  /** RED is valid exactly when it fails for the right reason alone. */
  lemma RedMeans(c: RedContract, baseline: Results, results: Results, v: RedVerdict)
    requires v.category == Category(SomeMissing(c, results), AllFailed(results, c.expected))
    requires forall r :: r in v.reasons <==> RedReasonHolds(c, baseline, results, r)
    requires v.valid == (v.reasons == [] && v.category.Some?)
    ensures v.valid <==> RedIsValid(c, baseline, results)
  {
    assert v.reasons != [] ==> v.reasons[0] in v.reasons && RedReasonHolds(c, baseline, results, v.reasons[0]);
    if !RedIsValid(c, baseline, results) {
      var r := RedReasonWhenInvalid(c, baseline, results);
      assert r in v.reasons;
    } else {
      if results.suiteFailures != [] {
        assert MissingInScope(c, results.suiteFailures[0]);
      }
    }
  }

  // ---------------------------------------------------------------- GREEN

  datatype GreenReason =
    | ExpectedTestMissing(id: TestId)
    | ExpectedTestSkipped(id: TestId)
    | ExpectedTestFailed(id: TestId)
    | BaselineRegression(id: TestId)
    | GreenRunnerFailed
    | NoGreenResults

  datatype GreenVerdict = GreenVerdict(valid: bool, reasons: seq<GreenReason>)

  /** What is wrong with one expected test at GREEN. */
  predicate ExpectedFault(results: Results, id: TestId, r: GreenReason) {
    match r
    case ExpectedTestMissing(x) => x == id && id !in results.tests
    case ExpectedTestSkipped(x) => x == id && id in results.tests && results.tests[id] in {Skipped, Todo}
    case ExpectedTestFailed(x) => x == id && id in results.tests && results.tests[id] == Failed
    case _ => false
  }

  function GreenReasonFor(results: Results, id: TestId): Option<GreenReason> {
    if id !in results.tests then Some(ExpectedTestMissing(id))
    else match results.tests[id]
      case Passed => None
      case Failed => Some(ExpectedTestFailed(id))
      case _ => Some(ExpectedTestSkipped(id))
  }

  ghost predicate GreenReasonHolds(baseline: Results, results: Results, expected: seq<TestId>, r: GreenReason) {
    || (exists id | id in expected :: ExpectedFault(results, id, r))
    || (exists id | Is(baseline, id, Passed) :: r == BaselineRegression(id) && !Is(results, id, Passed))
    || (r == GreenRunnerFailed && !(results.success && results.exitCode == 0))
  }

  ghost predicate GreenIsValid(baseline: Results, results: Results, expected: seq<TestId>) {
    && (forall id | id in expected :: Is(results, id, Passed))
    && (forall id | Is(baseline, id, Passed) :: Is(results, id, Passed))
    && results.success && results.exitCode == 0
  }

  method GreenExpected(results: Results, expected: seq<TestId>) returns (reasons: seq<GreenReason>)
    ensures forall r :: r in reasons <==> exists id | id in expected :: ExpectedFault(results, id, r)
  {
    reasons := [];
    for i := 0 to |expected|
      invariant forall r :: r in reasons <==> exists id | id in expected[..i] :: ExpectedFault(results, id, r)
    {
      assert expected[..i + 1] == expected[..i] + [expected[i]];
      assert expected[i] in expected[..i + 1];
      var reason := GreenReasonFor(results, expected[i]);
      if reason.Some? {
        reasons := reasons + [reason.value];
      }
    }
    assert expected[..|expected|] == expected;
  }

  method GreenRegressions(baseline: Results, results: Results) returns (reasons: seq<GreenReason>)
    ensures forall r :: r in reasons <==>
              exists id | Is(baseline, id, Passed) :: r == BaselineRegression(id) && !Is(results, id, Passed)
  {
    reasons := [];
    var left := baseline.tests.Keys;
    while left != {}
      invariant left <= baseline.tests.Keys
      invariant forall r :: r in reasons <==>
                  exists id | Is(baseline, id, Passed) :: id !in left && r == BaselineRegression(id) && !Is(results, id, Passed)
      decreases left
    {
      var id :| id in left;
      left := left - {id};
      if Is(baseline, id, Passed) && !Is(results, id, Passed) {
        reasons := reasons + [BaselineRegression(id)];
      }
    }
  }

  lemma GreenMeans(baseline: Results, results: Results, expected: seq<TestId>, reasons: seq<GreenReason>)
    requires forall r :: r in reasons <==> GreenReasonHolds(baseline, results, expected, r)
    ensures reasons == [] <==> GreenIsValid(baseline, results, expected)
  {
    assert reasons != [] ==> reasons[0] in reasons && GreenReasonHolds(baseline, results, expected, reasons[0]);
    assert !RunnerOk(results) ==> GreenRunnerFailed in reasons;
    forall id | id in expected && !Is(results, id, Passed) ensures reasons != [] {
      assert GreenReasonHolds(baseline, results, expected, GreenReasonFor(results, id).value);
    }
    forall id | Is(baseline, id, Passed) && !Is(results, id, Passed) ensures reasons != [] {
      assert GreenReasonHolds(baseline, results, expected, BaselineRegression(id));
    }
  }

  method ClassifyGreen(baseline: Results, run: Option<Results>, expected: seq<TestId>) returns (v: GreenVerdict)
    ensures run.None? ==> v == GreenVerdict(false, [NoGreenResults])
    ensures run.Some? ==>
              && (forall r :: r in v.reasons <==> GreenReasonHolds(baseline, run.value, expected, r))
              && (v.valid <==> GreenIsValid(baseline, run.value, expected))
  {
    if run.None? {
      return GreenVerdict(false, [NoGreenResults]);
    }
    var reasons := GreenExpected(run.value, expected);
    var regressions := GreenRegressions(baseline, run.value);
    reasons := reasons + regressions + if RunnerOk(run.value) then [] else [GreenRunnerFailed];
    GreenMeans(baseline, run.value, expected, reasons);
    return GreenVerdict(reasons == [], reasons);
  }

  // ---------------------------------------------------------------- tests first

  /** A baseline capture that passed, then a valid RED, then a valid GREEN. */
  ghost predicate TestsFirst(c: RedContract, policy: Policy, runs: seq<Results>, red: Results, green: Results) {
    && runs != [] && EvaluateBaselineRuns(runs, policy, c.expected).value.status == Pass
    && RedIsValid(c, runs[|runs| - 1], red)
    && GreenIsValid(runs[|runs| - 1], green, c.expected)
  }

  /** Each expected test is new, did not pass before the implementation, and passes with it. */
  lemma ExpectedTestsAreNew(c: RedContract, policy: Policy, runs: seq<Results>, red: Results, green: Results, id: TestId)
    requires TestsFirst(c, policy, runs, red, green) && id in c.expected
    ensures id !in runs[|runs| - 1].tests
    ensures !(id in red.tests && red.tests[id] == Passed)
    ensures id in green.tests && green.tests[id] == Passed
    ensures (id in red.tests && red.tests[id] == Failed) || exists f | f in red.suiteFailures :: MissingInScope(c, f)
  {
    BaselineStatusMeans(runs, policy, c.expected);
    if red.suiteFailures != [] {
      assert MissingInScope(c, red.suiteFailures[0]);
    }
  }

  /** Nothing that passed at baseline was broken on the way, and nothing but a missing module in scope kept RED from loading. */
  lemma NothingElseBroke(c: RedContract, policy: Policy, runs: seq<Results>, red: Results, green: Results)
    requires TestsFirst(c, policy, runs, red, green)
    ensures forall id | Is(runs[|runs| - 1], id, Passed) ::
              !Is(red, id, Failed) && !Is(red, id, Skipped) && Is(green, id, Passed)
    ensures forall f | f in red.suiteFailures :: f.cause == MissingModule && f.specifier.Some? && c.inScope(f.suitePath, f.specifier.value)
    ensures forall id | Is(runs[|runs| - 1], id, Failed) :: id in policy.knownFlaky
    ensures green.success && green.exitCode == 0 && runs[|runs| - 1].suiteFailures == []
  {
    BaselineStatusMeans(runs, policy, c.expected);
  }

  /** The whole tests-first sequence on one step, stopping at the first verdict that is not good. */
  method RunTestsFirst(c: RedContract, policy: Policy, baseline: nat -> Results, red: Option<Results>, green: Option<Results>)
    returns (ok: bool)
    ensures ok <==> exists n ::
                      && StopsAt(policy, c.expected, baseline, n)
                      && red.Some? && green.Some?
                      && TestsFirst(c, policy, Runs(baseline, n), red.value, green.value)
  {
    var capture := CaptureBaseline(policy, c.expected, baseline);
    ghost var n := capture.attempts;
    assert StopsAt(policy, c.expected, baseline, n);
    assert forall k | StopsAt(policy, c.expected, baseline, k) :: k == n;
    if capture.verdict.status != Pass {
      return false;
    }
    var redVerdict := ClassifyRed(c, capture.results, red);
    if red.Some? {
      RedMeans(c, capture.results, red.value, redVerdict);
    }
    if !redVerdict.valid {
      return false;
    }
    var greenVerdict := ClassifyGreen(capture.results, green, c.expected);
    return greenVerdict.valid;
  }
}
