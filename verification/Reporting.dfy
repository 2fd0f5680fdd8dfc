/**
 * Reporting a failed cycle before a new one: the startup gate asks whether the latest report names the attempt,
 * not whether it shows the failure. When that falls short, and when exactly it does not.
 */
module Reporting {
  import opened Wrappers
  import opened Failure
  import opened Records
  import opened Selection
  import opened Commits
  import opened Protocol
  import opened Preservation
  import opened Safety

  lemma After(ws: seq<World>, a: Action) returns (more: seq<World>)
    requires IsRun(ws) && Enabled(ws[|ws| - 1], a)
    ensures IsRun(more) && more[0] == ws[0] && more[|more| - 1] == Apply(ws[|ws| - 1], a)
  {
    more := ws + [Apply(ws[|ws| - 1], a)];
    forall k: nat | 0 < k < |more| ensures Follows(more, k) {
      if k < |ws| {
        assert Follows(ws, k);
      }
    }
  }

  function OneStepPlan(state: PlanState, attempts: seq<AttemptRecord>): PlanRecord {
    PlanRecord("p", "m", "r", 0, None, state, [StepRecord("s", false, None, attempts)])
  }

  function Attempt(state: AttemptState, runs: nat, failure: Option<string>): AttemptRecord {
    AttemptRecord(1, CodexFast, None, state, 0, runs, None, None, None, failure)
  }

  const BASE: map<CommitId, Commit> := map[0 := Commit(None, {}, {}, {}, {}, 0)]
  const CALM: Git := Git(BASE, None, [], 0)
  const BLOCKED: Git := Moved(CALM, ByOther(Some(0)))
  const CLEARED: Git := Moved(BLOCKED, ByOther(None))
  const DEAD: AttemptRecord := Attempt(AttemptState.Running, 1, None)
  const RERUN: AttemptRecord := Attempt(AttemptState.Running, 2, None)
  const FAILED: AttemptRecord := Attempt(AttemptState.Failed, 2, Some(FailureText(SetupFailed, "no container")))
  const SHOWN: Report := Report(OneStepPlan(PlanState.Failed, [DEAD]), None, Some("the branch already exists"))

  function Registered(): World {
    World(OneStepPlan(PlanState.Approved, []), CALM, {}, [], 1)
  }

  function Later(state: PlanState, a: AttemptRecord, g: Git, reports: seq<Report>): World {
    World(OneStepPlan(state, [a]), g, {}, reports, 2)
  }

  lemma OneStep(state: PlanState, attempts: seq<AttemptRecord>)
    ensures Done(OneStepPlan(state, attempts)) == 0
    ensures attempts == [DEAD] ==> Chosen(OneStepPlan(state, attempts), Low) == Some(Reuse(0, 0, Normal))
    ensures attempts == [FAILED] ==> Chosen(OneStepPlan(state, attempts), Low) == Some(Start(CodexFast, 0, None))
    ensures attempts == [] ==> Chosen(OneStepPlan(state, attempts), Low) == Some(Start(CodexFast, 0, None))
    ensures attempts == [DEAD] || attempts == [FAILED] || attempts == [] ==> !AnyAccepting(OneStepPlan(state, attempts))
  {
    DoneUnique(OneStepPlan(state, attempts), 0);
    RetryableRoundTrip(SetupFailed, "no container");
    var p := OneStepPlan(state, attempts);
    forall i: nat, j: nat | IsAttempt(p, i, j) ensures At(p, i, j) in attempts {
    }
    assert attempts == [DEAD] || attempts == [FAILED] || attempts == [] ==> forall a | a in attempts :: !a.state.Accepting?;
  }

  lemma Begins()
    ensures Enabled(Registered(), MarkRunning) && Enabled(Apply(Registered(), MarkRunning), StartAttempt(Low))
    ensures Apply(Apply(Registered(), MarkRunning), StartAttempt(Low)) == Later(PlanState.Running, DEAD, CALM, [])
  {
    OneStep(PlanState.Approved, []);
    OneStep(PlanState.Running, []);
    assert [] + [DEAD] == [DEAD];
    assert Started(OneStepPlan(PlanState.Running, []), 0, DEAD).steps == OneStepPlan(PlanState.Running, [DEAD]).steps;
  }

  lemma IsBlocked()
    ensures
      var w := Later(PlanState.Running, DEAD, CALM, []);
      && Enabled(w, OtherMove(Some(0))) && Apply(w, OtherMove(Some(0))) == Later(PlanState.Running, DEAD, BLOCKED, [])
    ensures
      var w := Later(PlanState.Running, DEAD, BLOCKED, []);
      && Enabled(w, MarkFailed) && Apply(w, MarkFailed) == Later(PlanState.Failed, DEAD, BLOCKED, [])
    ensures
      var w := Later(PlanState.Failed, DEAD, BLOCKED, []);
      && Enabled(w, WriteReport(SHOWN)) && Apply(w, WriteReport(SHOWN)) == Later(PlanState.Failed, DEAD, BLOCKED, [SHOWN])
    ensures
      var w := Later(PlanState.Failed, DEAD, BLOCKED, [SHOWN]);
      && Enabled(w, OtherMove(None)) && Apply(w, OtherMove(None)) == Later(PlanState.Failed, DEAD, CLEARED, [SHOWN])
  {
    assert BLOCKED.moves[0].ByOther?;
  }

  lemma RunsAgain()
    ensures
      var w := Later(PlanState.Failed, DEAD, CLEARED, [SHOWN]);
      && Enabled(w, MarkRunning) && Apply(w, MarkRunning) == Later(PlanState.Running, DEAD, CLEARED, [SHOWN])
    ensures
      var w := Later(PlanState.Running, DEAD, CLEARED, [SHOWN]);
      && Enabled(w, RecordRecoveryRun) && Apply(w, RecordRecoveryRun) == Later(PlanState.Running, RERUN, CLEARED, [SHOWN])
  {
    OneStep(PlanState.Failed, [DEAD]);
    OneStep(PlanState.Running, [DEAD]);
    assert [DEAD][0 := RERUN] == [RERUN];
    assert WithAttempt(OneStepPlan(PlanState.Running, [DEAD]), 0, 0, RERUN).steps == OneStepPlan(PlanState.Running, [RERUN]).steps;
  }

  lemma FailsUnreported()
    ensures
      var w := Later(PlanState.Running, RERUN, CLEARED, [SHOWN]);
      var a := FailAttempt(FailureText(SetupFailed, "no container"));
      && Enabled(w, a) && Apply(w, a) == Later(PlanState.Failed, FAILED, CLEARED, [SHOWN])
  {
    OneStep(PlanState.Running, [RERUN]);
    assert CLEARED.moves[0].ByOther?;
    var p := OneStepPlan(PlanState.Running, [RERUN]);
    assert [RERUN][0 := FAILED] == [FAILED];
    assert Stopped(p, 0, 0, FailureText(SetupFailed, "no container")).steps == OneStepPlan(PlanState.Failed, [FAILED]).steps;
  }

  lemma BeginsAgain()
    ensures
      var w := Later(PlanState.Failed, FAILED, CLEARED, [SHOWN]);
      && Enabled(w, MarkRunning) && Apply(w, MarkRunning) == Later(PlanState.Running, FAILED, CLEARED, [SHOWN])
    ensures
      var w := Later(PlanState.Running, FAILED, CLEARED, [SHOWN]);
      && Enabled(w, StartAttempt(Low)) && Chosen(w.plan, Low).value.StartsNormal() && HasLast(w.plan)
      && !ShowsFailed(SHOWN, Last(w.plan).id)
  {
    OneStep(PlanState.Failed, [FAILED]);
    OneStep(PlanState.Running, [FAILED]);
    assert IsAttempt(SHOWN.rows, 0, 0) && At(SHOWN.rows, 0, 0).id == 1 && !At(SHOWN.rows, 0, 0).state.Failed?;
  }

  /** Up to the moment the branch is gone again and the only report shows the attempt as running. */
  lemma ShownRunning() returns (ws: seq<World>)
    ensures IsRun(ws) && ws[0] == Registered() && ws[|ws| - 1] == Later(PlanState.Failed, DEAD, CLEARED, [SHOWN])
  {
    Begins();
    IsBlocked();
    ws := [Registered()];
    ws := After(ws, MarkRunning);
    ws := After(ws, StartAttempt(Low));
    ws := After(ws, OtherMove(Some(0)));
    ws := After(ws, MarkFailed);
    ws := After(ws, WriteReport(SHOWN));
    ws := After(ws, OtherMove(None));
  }

  /**
   * Somebody creates the branch while an attempt is running and its process is dead, and deletes it again after
   * the startup gate has reported the plan with that attempt shown as running. The attempt then runs again, fails
   * and its process dies before reporting: the next start begins a new cycle, because the old report names the attempt.
   */
  lemma UnreportedFailure() returns (ws: seq<World>)
    ensures IsRun(ws) && Init(ws[0])
    ensures
      var w := ws[|ws| - 1];
      && Enabled(w, StartAttempt(Low)) && Chosen(w.plan, Low).value.StartsNormal() && HasLast(w.plan)
      && w.reports != [] && !ShowsFailed(w.reports[|w.reports| - 1], Last(w.plan).id)
  {
    ws := ShownRunning();
    RunsAgain();
    FailsUnreported();
    BeginsAgain();
    ws := After(ws, MarkRunning);
    ws := After(ws, RecordRecoveryRun);
    ws := After(ws, FailAttempt(FailureText(SetupFailed, "no container")));
    ws := After(ws, MarkRunning);
  }

  // ---------------------------------------------------------------- exactly when

  /** A failure that ends its cycle: the attempt was the stronger one, or its category is not retryable. */
  ghost predicate EndsCycle(w: World, failure: string) {
    Enabled(w, FailAttempt(failure)) && (Last(w.plan).Kind().Stronger? || !RetryableText(Some(failure)))
  }

  /** A new cycle may begin now, directly after the attempt. */
  ghost predicate BeginsAfter(w: World, id: AttemptId) {
    HasLast(w.plan) && Last(w.plan).id == id
    && Enabled(w, StartAttempt(Low)) && Chosen(w.plan, Low).value.StartsNormal()
  }

  ghost predicate LatestShowsFailed(w: World, id: AttemptId) {
    w.reports != [] && ShowsFailed(w.reports[|w.reports| - 1], id)
  }

  ghost predicate LatestNames(w: World, id: AttemptId) {
    w.reports != [] && Lists(w.reports[|w.reports| - 1], id)
  }

  /** From the attempt's failure on: its row is final, and the latest report does not name it or shows it failed. */
  ghost predicate FailureUpToDate(w: World, i: nat, j: nat, a: AttemptRecord) {
    SettledAs(w.plan, i, j, a) && a.state.Failed? && (LatestNames(w, a.id) ==> LatestShowsFailed(w, a.id))
  }

  /** A row of the plan as it reads shows the settled attempt as it settled. */
  lemma RowsShow(p: PlanRecord, nonce: nat, r: Report, i: nat, j: nat, a: AttemptRecord)
    requires IdsOk(p, nonce) && SettledAs(p, i, j, a) && a.state.Failed? && r.rows.steps == p.steps
    ensures ShowsFailed(r, a.id)
  {
    assert IsAttempt(r.rows, i, j) && At(r.rows, i, j).id == a.id;
    forall x: nat, y: nat | IsAttempt(r.rows, x, y) && At(r.rows, x, y).id == a.id ensures At(r.rows, x, y).state.Failed? {
      assert IsAttempt(p, x, y) && At(p, x, y).id == At(p, i, j).id;
    }
  }

  lemma UpToDateStep(w: World, step: Action, i: nat, j: nat, a: AttemptRecord)
    requires Inv(w) && Enabled(w, step) && FailureUpToDate(w, i, j, a)
    ensures FailureUpToDate(Apply(w, step), i, j, a)
  {
    SettledStep(w, step, i, j, a);
    if step.WriteReport? {
      RowsShow(w.plan, w.nonce, step.report, i, j, a);
    }
  }

  lemma UpToDateOnce(ws: seq<World>, k: nat, i: nat, j: nat, a: AttemptRecord)
    requires IsRun(ws) && AllSound(ws) && 0 < k < |ws| && FailureUpToDate(ws[k - 1], i, j, a)
    ensures FailureUpToDate(ws[k], i, j, a)
  {
    assert SoundAt(ws, k - 1);
    var step := StepOf(ws, k);
    UpToDateStep(ws[k - 1], step, i, j, a);
  }

  lemma {:induction false} UpToDateRun(ws: seq<World>, k: nat, i: nat, j: nat, a: AttemptRecord)
    requires IsRun(ws) && AllSound(ws) && FailureUpToDate(ws[0], i, j, a) && k < |ws|
    ensures FailureUpToDate(ws[k], i, j, a)
  {
    if k > 0 {
      UpToDateRun(ws, k - 1, i, j, a);
      UpToDateOnce(ws, k, i, j, a);
    }
  }

  /** The failed attempt's row right after the failure. */
  lemma FailureSettles(w: World, failure: string)
    requires Inv(w) && Enabled(w, FailAttempt(failure))
    ensures
      var v := Apply(w, FailAttempt(failure));
      var a := Last(w.plan).(state := AttemptState.Failed, failure := Some(failure));
      && Inv(v) && Done(v.plan) == Done(w.plan) && HasLast(v.plan) && Last(v.plan) == a
      && SettledAs(v.plan, Done(w.plan), LastIndex(w.plan), a)
  {
    InvStep(w, FailAttempt(failure));
    RowsShape(w, FailAttempt(failure));
  }

  /** Then a new cycle is what selection chooses, and only the missing announcement could hold it back. */
  lemma CycleEnds(v: World)
    requires Inv(v) && v.plan.state.Failed? && HasLast(v.plan) && Last(v.plan).state.Failed?
    requires Last(v.plan).Kind().Stronger? || !RetryableText(Last(v.plan).failure)
    requires LatestNames(v, Last(v.plan).id)
    ensures Enabled(v, MarkRunning) && BeginsAfter(Apply(v, MarkRunning), Last(v.plan).id)
    ensures Apply(v, MarkRunning).reports == v.reports
  {
    NothingLive(v.plan);
    NextAttemptMeaning(v.plan, Low);
    SameRows(v.plan, PlanState.Running);
  }

  lemma NamedAliveIsNotShownFailed(w: World, r: Report)
    requires Inv(w) && HasLast(w.plan) && Last(w.plan).Live() && r in w.reports && Lists(r, Last(w.plan).id)
    ensures !ShowsFailed(r, Last(w.plan).id)
  {
    var i: nat, j: nat :| IsAttempt(r.rows, i, j) && At(r.rows, i, j).id == Last(w.plan).id;
    assert FailedStays(w.plan, At(r.rows, i, j));
    assert IsAttempt(w.plan, Done(w.plan), LastIndex(w.plan));
    assert At(w.plan, Done(w.plan), LastIndex(w.plan)).id == At(r.rows, i, j).id;
  }

  lemma NamedIsNotShown(w: World, failure: string)
    requires Inv(w) && Enabled(w, FailAttempt(failure)) && LatestNames(w, Last(w.plan).id)
    ensures LatestNames(Apply(w, FailAttempt(failure)), Last(w.plan).id)
    ensures !LatestShowsFailed(Apply(w, FailAttempt(failure)), Last(w.plan).id)
  {
    NamedAliveIsNotShownFailed(w, w.reports[|w.reports| - 1]);
  }

  lemma NamedFails(w: World, failure: string)
    requires Inv(w) && EndsCycle(w, failure) && LatestNames(w, Last(w.plan).id)
    ensures
      var v, id := Apply(w, FailAttempt(failure)), Last(w.plan).id;
      && Inv(v) && v.plan.state.Failed? && HasLast(v.plan) && Last(v.plan).id == id && Last(v.plan).state.Failed?
      && (Last(v.plan).Kind().Stronger? || !RetryableText(Last(v.plan).failure))
      && LatestNames(v, id) && !LatestShowsFailed(v, id)
  {
    FailureSettles(w, failure);
    NamedIsNotShown(w, failure);
  }

  /** If the latest report already names the attempt, the next start may begin the new cycle unreported. */
  lemma NamedCycleBegins(w: World, failure: string)
    requires Inv(w) && EndsCycle(w, failure) && LatestNames(w, Last(w.plan).id)
    ensures
      var v := Apply(w, FailAttempt(failure));
      && Enabled(v, MarkRunning)
      && BeginsAfter(Apply(v, MarkRunning), Last(w.plan).id) && !LatestShowsFailed(Apply(v, MarkRunning), Last(w.plan).id)
  {
    NamedFails(w, failure);
    CycleEnds(Apply(w, FailAttempt(failure)));
  }

  lemma StartsUpToDate(w: World, failure: string)
    requires Inv(w) && EndsCycle(w, failure) && !LatestNames(w, Last(w.plan).id)
    ensures FailureUpToDate(Apply(w, FailAttempt(failure)), Done(w.plan), LastIndex(w.plan),
                            Last(w.plan).(state := AttemptState.Failed, failure := Some(failure)))
  {
    FailureSettles(w, failure);
  }

  lemma UpToDateIsShown(v: World, i: nat, j: nat, a: AttemptRecord)
    requires Inv(v) && FailureUpToDate(v, i, j, a) && BeginsAfter(v, a.id)
    ensures LatestShowsFailed(v, a.id)
  {
    NoSilentCycle(v, Low);
  }

  lemma ShownAlong(ws: seq<World>, i: nat, j: nat, a: AttemptRecord)
    requires IsRun(ws) && AllSound(ws) && FailureUpToDate(ws[0], i, j, a) && BeginsAfter(ws[|ws| - 1], a.id)
    ensures LatestShowsFailed(ws[|ws| - 1], a.id)
  {
    UpToDateRun(ws, |ws| - 1, i, j, a);
    assert SoundAt(ws, |ws| - 1);
    UpToDateIsShown(ws[|ws| - 1], i, j, a);
  }

  /** Otherwise the report that announces the cycle shows it failed. */
  lemma UnnamedIsReported(ws: seq<World>, w: World, failure: string)
    requires Inv(w) && EndsCycle(w, failure) && !LatestNames(w, Last(w.plan).id)
    requires IsRun(ws) && ws[0] == Apply(w, FailAttempt(failure)) && BeginsAfter(ws[|ws| - 1], Last(w.plan).id)
    ensures LatestShowsFailed(ws[|ws| - 1], Last(w.plan).id)
  {
    assert AllSound(ws) by {
      InvStep(w, FailAttempt(failure));
      SoundRun(ws);
    }
    StartsUpToDate(w, failure);
    ShownAlong(ws, Done(w.plan), LastIndex(w.plan), Last(w.plan).(state := AttemptState.Failed, failure := Some(failure)));
  }

  /**
   * The exact condition: every way the run can continue shows the failure before a new cycle begins if and only
   * if the latest report, at the moment of the failure, does not name the attempt.
   */
  lemma ReportedExactlyWhenUnnamed(w: World, failure: string)
    requires Inv(w) && EndsCycle(w, failure)
    ensures
      (forall ws: seq<World> | IsRun(ws) && ws[0] == Apply(w, FailAttempt(failure)) && BeginsAfter(ws[|ws| - 1], Last(w.plan).id) ::
         LatestShowsFailed(ws[|ws| - 1], Last(w.plan).id))
      <==> !LatestNames(w, Last(w.plan).id)
  {
    if LatestNames(w, Last(w.plan).id) {
      NamedCycleBegins(w, failure);
      var ws := After([Apply(w, FailAttempt(failure))], MarkRunning);
      assert IsRun(ws);
    } else {
      forall ws: seq<World> | IsRun(ws) && ws[0] == Apply(w, FailAttempt(failure)) && BeginsAfter(ws[|ws| - 1], Last(w.plan).id)
        ensures LatestShowsFailed(ws[|ws| - 1], Last(w.plan).id)
      {
        UnnamedIsReported(ws, w, failure);
      }
    }
  }

  // ---------------------------------------------------------------- one failing read is enough

  /** What the startup gate publishes when it cannot read the branch. */
  function Unread(p: PlanRecord): Report {
    Report(p.(state := PlanState.Failed), None, Some("the branch cannot be read"))
  }

  /** Nothing but a failed read, the plan's own state and a report is new; the attempt is running as before. */
  ghost predicate Misreported(w: World, v: World) {
    && v.plan == w.plan.(state := PlanState.Failed) && v.git == w.git.(misreads := w.git.misreads + 1)
    && v.reports == w.reports + [Unread(w.plan)] && v.snaps == w.snaps && v.nonce == w.nonce
  }

  lemma MisreadWrites(w: World)
    requires w.plan.Active()
    ensures
      var misread := Apply(w, FailRead);
      && Enabled(misread, MarkFailed) && Enabled(Apply(misread, MarkFailed), WriteReport(Unread(w.plan)))
      && Misreported(w, Apply(Apply(misread, MarkFailed), WriteReport(Unread(w.plan))))
  {
  }

  /** A startup that cannot read the branch. */
  lemma StartupMisreads(w: World) returns (ws: seq<World>)
    requires w.plan.Active()
    ensures IsRun(ws)
    ensures ws[0] == w && Misreported(w, ws[|ws| - 1])
  {
    MisreadWrites(w);
    ws := After([w], FailRead);
    ws := After(ws, MarkFailed);
    ws := After(ws, WriteReport(Unread(w.plan)));
  }

  lemma MisreportNames(w: World, v: World)
    requires Inv(w) && HasLast(w.plan) && Last(w.plan).state.Running? && Misreported(w, v)
    ensures HasLast(v.plan) && Last(v.plan) == Last(w.plan) && LatestNames(v, Last(w.plan).id)
    ensures !AnyAccepting(v.plan) && !FreshCycle(v.plan)
  {
    SameRows(w.plan, PlanState.Failed);
    OwnRowsList(Unread(w.plan), w.plan);
    assert v.reports[|v.reports| - 1] == Unread(w.plan);
    forall i: nat, j: nat | IsAttempt(w.plan, i, j) ensures !At(w.plan, i, j).state.Accepting? {
      if At(w.plan, i, j).state.Accepting? {
        LiveIsLast(w.plan, i, j);
      }
    }
  }

  /** The world in which the attempt runs once more. */
  ghost predicate RunsOnce(v: World, w: World)
    requires HasLast(v.plan)
  {
    && w.git == v.git && w.reports == v.reports && w.plan.state.Running?
    && HasLast(w.plan) && Last(w.plan) == Last(v.plan).(runs := Last(v.plan).runs + 1)
  }

  lemma RerunWrites(v: World)
    requires v.plan.Active() && HasLast(v.plan) && Last(v.plan).state.Running? && !AnyAccepting(v.plan) && !FreshCycle(v.plan)
    ensures
      && Enabled(v, MarkRunning) && Enabled(Apply(v, MarkRunning), RecordRecoveryRun)
      && RunsOnce(v, Apply(Apply(v, MarkRunning), RecordRecoveryRun))
  {
    SameRows(v.plan, PlanState.Running);
    var p := v.plan.(state := PlanState.Running);
    SameButLastOf(p, Last(p).(runs := Last(p).runs + 1), PlanState.Running);
  }

  /** The next startup reads the branch, and runs the attempt again. */
  lemma Reruns(v: World) returns (ws: seq<World>)
    requires v.plan.Active() && HasLast(v.plan) && Last(v.plan).state.Running? && !AnyAccepting(v.plan) && !FreshCycle(v.plan)
    ensures IsRun(ws)
    ensures ws[0] == v && RunsOnce(v, ws[|ws| - 1])
  {
    RerunWrites(v);
    ws := After([v], MarkRunning);
    ws := After(ws, RecordRecoveryRun);
  }

  lemma Joined(ws: seq<World>, more: seq<World>) returns (all: seq<World>)
    requires IsRun(ws) && IsRun(more) && more[0] == ws[|ws| - 1]
    ensures IsRun(all) && all[0] == ws[0] && all[|all| - 1] == more[|more| - 1]
  {
    RestartIsRun(ws, |ws| - 1, more);
    all := ws[..|ws| - 1 + 1] + more[1..];
  }

  lemma MayFailNow(w: World, failure: string)
    requires Inv(w) && w.plan.Active() && HasLast(w.plan) && Last(w.plan).state.Running? && w.git.misreads > 0
    ensures Enabled(w, FailAttempt(failure))
  {
    assert IsAttempt(w.plan, Done(w.plan), LastIndex(w.plan)) && At(w.plan, Done(w.plan), LastIndex(w.plan)).state.Running?;
  }

  /** Then the attempt fails, its process dies unreporting, and one more startup begins the new cycle. */
  lemma FailsAgain(ws: seq<World>, failure: string) returns (more: seq<World>)
    requires IsRun(ws) && Inv(ws[0])
    requires
      var w := ws[|ws| - 1];
      && w.plan.Active() && HasLast(w.plan) && Last(w.plan).state.Running? && w.git.misreads > 0
      && (Last(w.plan).Kind().Stronger? || !RetryableText(Some(failure))) && LatestNames(w, Last(w.plan).id)
    ensures IsRun(more) && more[0] == ws[0] && more[|more| - 1].git == ws[|ws| - 1].git
    ensures
      var w := ws[|ws| - 1];
      BeginsAfter(more[|more| - 1], Last(w.plan).id) && !LatestShowsFailed(more[|more| - 1], Last(w.plan).id)
  {
    var w := ws[|ws| - 1];
    InvRun(ws, |ws| - 1);
    MayFailNow(w, failure);
    NamedCycleBegins(w, failure);
    more := After(ws, FailAttempt(failure));
    more := After(more, MarkRunning);
  }

  /**
   * Nobody touches the branch: wherever a process has died with its attempt running and a head is recorded, one
   * read of the branch that fails at the next startup is enough for the attempt's failure never to be shown before
   * a new cycle begins.
   */
  lemma MisreadHidesFailure(w: World, failure: string) returns (ws: seq<World>)
    requires Inv(w) && w.plan.Active() && w.plan.head.Some? && HasLast(w.plan) && Last(w.plan).state.Running?
    requires Last(w.plan).Kind().Stronger? || !RetryableText(Some(failure))
    ensures IsRun(ws) && ws[0] == w && ws[|ws| - 1].git == w.git.(misreads := w.git.misreads + 1)
    ensures BeginsAfter(ws[|ws| - 1], Last(w.plan).id) && !LatestShowsFailed(ws[|ws| - 1], Last(w.plan).id)
  {
    ws := StartupMisreads(w);
    var v := ws[|ws| - 1];
    MisreportNames(w, v);
    InvRun(ws, |ws| - 1);
    var more := Reruns(v);
    ws := Joined(ws, more);
    ws := FailsAgain(ws, failure);
  }
}
