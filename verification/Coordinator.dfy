/** Driving an approved plan: startup gates, the step loop, completion and pruning (src/run/coordinator.ts). */
module Coordinator {
  import opened Wrappers
  import opened Failure
  import opened Records
  import opened Selection
  import opened Commits
  import opened Protocol
  import opened Preservation
  import opened Routing
  import opened StateStores
  import opened Stores
  import opened Executor
  import opened Sessions
  import opened Recovery

  /** Everything an invocation cannot decide itself: `runs(n)` is its n-th executor run. */
  datatype Surroundings = Surroundings(recovery: Effort, runs: nat -> Run, exported: seq<Snapshot>, verified: bool) {
    ghost predicate Favourable() {
      recovery.Succeeds() && verified && forall n :: runs(n).Succeeds()
    }
  }

  function Compose(p: PlanRecord, verified: Option<bool>, failure: Option<string>): Report {
    Report(p, verified, failure)
  }

  predicate Names(r: Report, id: AttemptId) {
    exists i | 0 <= i < |r.rows.steps| :: exists j | 0 <= j < |r.rows.steps[i].attempts| :: r.rows.steps[i].attempts[j].id == id
  }

  lemma NamesIsLists(r: Report, id: AttemptId)
    ensures Names(r, id) <==> Lists(r, id)
  {
    if Names(r, id) {
      var i: nat :| i < |r.rows.steps| && exists j | 0 <= j < |r.rows.steps[i].attempts| :: r.rows.steps[i].attempts[j].id == id;
      var j: nat :| j < |r.rows.steps[i].attempts| && r.rows.steps[i].attempts[j].id == id;
      assert IsAttempt(r.rows, i, j) && At(r.rows, i, j).id == id;
    }
  }

  ghost predicate LatestIs(reports: ReportDirectory, r: Report)
    requires reports.Valid()
    reads reports
  {
    reports.Contents() != [] && reports.Contents()[|reports.Contents()| - 1] == r
  }

  /** An invocation that stops leaves the plan failed, and its report on disk as the rows then read, with the reason. */
  ghost predicate Halted(s: Session, stop: Option<Report>)
    requires s.row < |s.store.plans| && s.reports.Valid()
    reads s.store, s.reports
  {
    stop.Some? ==>
      && s.store.plans[s.row].state.Failed? && stop.value.rows == s.store.plans[s.row] && LatestIs(s.reports, stop.value)
      && stop.value.verified.None? && stop.value.failure.Some?
  }

  // ---------------------------------------------------------------- pruning

  /** A snapshot recovery may still need. */
  predicate Needed(p: PlanRecord, x: Snapshot) {
    HasLast(p) && Last(p).state.Accepting? && Last(p).candidate == Some(x)
  }

  /** The candidates to keep, or nothing when a live attempt may still be reading its snapshots. */
  method SnapshotsToKeep(p: PlanRecord, atStartup: bool) returns (keep: Option<set<Snapshot>>)
    requires PlanOk(p)
    ensures keep.None? <==> AnyRunning(p) && !atStartup
    ensures keep.Some? ==> forall x :: x in keep.value <==> Needed(p, x)
  {
    var found := {};
    for i := 0 to |p.steps|
      invariant forall k: nat, l: nat | IsAttempt(p, k, l) && k < i && At(p, k, l).state.Running? :: atStartup
      invariant forall k: nat, l: nat | IsAttempt(p, k, l) && k < i && At(p, k, l).state.Accepting? :: At(p, k, l).candidate.GetOr(0) in found
      invariant forall x | x in found :: Needed(p, x)
    {
      var attempts := p.steps[i].attempts;
      for j := 0 to |attempts|
        invariant forall k: nat, l: nat | IsAttempt(p, k, l) && (k < i || (k == i && l < j)) && At(p, k, l).state.Running? :: atStartup
        invariant forall k: nat, l: nat | IsAttempt(p, k, l) && (k < i || (k == i && l < j)) && At(p, k, l).state.Accepting? ::
            At(p, k, l).candidate.GetOr(0) in found
        invariant forall x | x in found :: Needed(p, x)
      {
        assert attempts[j] == At(p, i, j) && AttemptOk(p, i, j);
        if attempts[j].state.Running? && !atStartup {
          return None;
        }
        if attempts[j].state.Accepting? && attempts[j].candidate.Some? {
          LiveIsLast(p, i, j);
          found := found + {attempts[j].candidate.value};
        }
      }
    }
    forall x | Needed(p, x) ensures x in found {
      assert IsAttempt(p, Done(p), LastIndex(p)) && At(p, Done(p), LastIndex(p)).state.Accepting?;
    }
    return Some(found);
  }

  /** Removes every snapshot but the candidate of an attempt in `accepting`; does nothing beside a live attempt. */
  method PruneSnapshots(s: Session, atStartup: bool)
    requires s.Valid() && !s.store.plans[s.row].state.Cancelled?
    modifies s.snapshots, s`trace
    ensures OnlySnapshots(s)
    ensures AnyRunning(s.store.plans[s.row]) && !atStartup ==> s.snapshots.held == old(s.snapshots.held)
    ensures !AnyRunning(s.store.plans[s.row]) || atStartup ==>
              forall x :: x in s.snapshots.held <==> x in old(s.snapshots.held) && Needed(s.store.plans[s.row], x)
  {
    s.SoundRows();
    var keep := SnapshotsToKeep(s.store.plans[s.row], atStartup);
    if keep.None? {
      return;
    }
    var left := s.snapshots.held;
    while left != {}
      invariant OnlySnapshots(s)
      invariant left <= s.snapshots.held <= old(s.snapshots.held)
      invariant forall x | x in s.snapshots.held && x !in left :: x in keep.value
      invariant forall x | x in old(s.snapshots.held) && x in keep.value :: x in s.snapshots.held
      decreases left
    {
      var x :| x in left;
      left := left - {x};
      if x !in keep.value {
        s.DropSnapshot(x);
      }
    }
  }

  // ---------------------------------------------------------------- the rows of a session

  /** The calls left for a step are one exactly when the stronger attempt is next; a fresh cycle is told by any complexity. */
  lemma SelectionAgrees(p: PlanRecord, complexity: Complexity)
    requires PlanOk(p) && Done(p) < |p.steps| && !AnyAccepting(p)
    ensures
      var choice := Chosen(p, complexity);
      && choice.Some? && Budget(p) == (if choice.value.Stronger() then 1 else 2)
      && (choice.value.Reuse? <==> HasLast(p) && Last(p).state.Running?)
      && (choice.value.Reuse? ==> choice.value.index == LastIndex(p) && choice.value.kind == Last(p).Kind())
      && (choice.value.Start? && HasLast(p) ==> Last(p).state.Failed?)
      && (HasLast(p) && Last(p).state.Failed? ==>
            (choice.value.Stronger() <==> Last(p).Kind().Normal? && RetryableText(Last(p).failure)))
      && (FreshCycle(p) <==> HasLast(p) && Last(p).state.Failed? && choice.value.StartsNormal())
  {
    NextAttemptMeaning(p, complexity);
    NextAttemptMeaning(p, Low);
  }

  lemma SelectionNow(s: Session, complexity: Complexity)
    requires s.Valid() && Done(s.store.plans[s.row]) < |s.store.plans[s.row].steps| && !AnyAccepting(s.store.plans[s.row])
    ensures
      var p := s.store.plans[s.row];
      var choice := Chosen(p, complexity);
      && choice.Some? && Budget(p) == (if choice.value.Stronger() then 1 else 2)
      && (choice.value.Reuse? <==> HasLast(p) && Last(p).state.Running?)
      && (choice.value.Reuse? ==> choice.value.index == LastIndex(p) && choice.value.kind == Last(p).Kind())
      && (choice.value.Start? && HasLast(p) ==> Last(p).state.Failed?)
      && (HasLast(p) && Last(p).state.Failed? ==>
            (choice.value.Stronger() <==> Last(p).Kind().Normal? && RetryableText(Last(p).failure)))
      && (FreshCycle(p) <==> HasLast(p) && Last(p).state.Failed? && choice.value.StartsNormal())
  {
    s.SoundRows();
    SelectionAgrees(s.store.plans[s.row], complexity);
  }

  lemma NothingRuns(s: Session)
    requires s.Valid() && (HasLast(s.store.plans[s.row]) ==> !Last(s.store.plans[s.row]).Live())
    ensures !AnyRunning(s.store.plans[s.row]) && !AnyAccepting(s.store.plans[s.row])
  {
    s.SoundRows();
    NothingLive(s.store.plans[s.row]);
  }

  lemma NeededIsAccepting(p: PlanRecord, x: Snapshot)
    requires Needed(p, x)
    ensures AnyAccepting(p)
  {
    assert IsAttempt(p, Done(p), LastIndex(p)) && At(p, Done(p), LastIndex(p)).state.Accepting?;
  }

  lemma NothingNeeded(p: PlanRecord)
    requires !AnyAccepting(p)
    ensures forall x :: !Needed(p, x)
  {
    forall x ensures !Needed(p, x) {
      if Needed(p, x) {
        NeededIsAccepting(p, x);
      }
    }
  }

  lemma MisreadsSince(s: Session, w: World, k: nat)
    requires s.Valid() && k < |s.trace| && s.trace[k] == w
    ensures w.git.misreads <= s.repo.git.misreads
  {
    s.GrowsAlong(k);
  }

  lemma GrownSince(s: Session, w: World, k: nat)
    requires s.Valid() && k < |s.trace| && s.trace[k] == w
    ensures Grown(w.git, s.repo.git)
  {
    s.GrowsAlong(k);
  }

  // ---------------------------------------------------------------- one invocation

  /** Publishes a report of the rows as they read now. */
  method Finish(s: Session, verified: Option<bool>, failure: string) returns (r: Report)
    requires s.Valid() && s.store.plans[s.row].Active()
    requires Calm(s.repo.git) ==> !AnyRunning(s.store.plans[s.row])
    modifies s.reports, s`trace
    ensures s.Valid() && old(s.trace) <= s.trace
    ensures r == Report(s.store.plans[s.row], verified, Some(failure))
    ensures s.World() == old(s.World()).(reports := old(s.reports.Contents()) + [r])
  {
    r := Compose(s.store.plans[s.row], verified, Some(failure));
    s.Publish(r);
  }

  /** Marks the plan failed and publishes why. */
  method Stop(s: Session, failure: string) returns (r: Report)
    requires s.Valid() && s.store.plans[s.row].Active()
    requires Calm(s.repo.git) ==> !AnyRunning(s.store.plans[s.row])
    modifies s.store, s.reports, s`trace
    ensures s.Valid() && old(s.trace) <= s.trace
    ensures r == Report(s.store.plans[s.row], None, Some(failure)) && r.rows.state.Failed?
    ensures s.World() == old(s.World()).(plan := old(s.store.plans[s.row]).(state := PlanState.Failed), reports := s.reports.Contents())
    ensures s.reports.Contents() == old(s.reports.Contents()) + [r]
  {
    SameRows(s.store.plans[s.row], PlanState.Failed);
    s.MarkPlan(PlanState.Failed);
    r := Finish(s, None, failure);
  }

  /** A failed cycle the latest report does not name yet. */
  ghost predicate Owes(w: World) {
    w.plan.state.Failed? && !Announced(w)
  }

  /** Whether a failed cycle still has to be reported before a new one may begin. */
  method OwesReport(s: Session, complexity: Complexity) returns (owes: bool)
    requires s.Valid() && !AnyAccepting(s.store.plans[s.row])
    ensures owes <==> Owes(s.World())
    ensures
      var p, reports := s.store.plans[s.row], s.reports.Contents();
      owes <==>
        && p.state.Failed? && HasLast(p) && Last(p).state.Failed?
        && (Last(p).retryOf.Some? || !RetryableText(Last(p).failure))
        && !(reports != [] && Lists(reports[|reports| - 1], Last(p).id))
  {
    var p := s.store.plans[s.row];
    if !p.state.Failed? {
      return false;
    }
    var pending := s.store.NextPendingStep(s.row);
    if pending.None? {
      return false;
    }
    var attempts := p.steps[pending.value].attempts;
    var selection := NextAttempt(p.steps[pending.value], complexity, p.Tip());
    SelectionNow(s, complexity);
    var previous := s.reports.Latest();
    var reported := attempts != [] && previous.Some? && Names(previous.value, attempts[|attempts| - 1].id);
    if reported {
      NamesIsLists(previous.value, attempts[|attempts| - 1].id);
    }
    var resumable := selection.Some? && (selection.value.Reuse? || selection.value.Stronger());
    owes := !resumable && attempts != [] && !reported;
  }

  /**
   * The branch gate: a plan that accepted nothing must have no branch. It holds only somebody else's branch against
   * the plan; a branch that cannot be read passes for an absent one.
   */
  method BranchGate(s: Session) returns (clear: bool)
    requires s.Valid() && s.store.plans[s.row].Active() && !AnyAccepting(s.store.plans[s.row])
    requires s.store.plans[s.row].head.Some? ==> AtRest(s.World())
    modifies s.repo, s`trace
    ensures s.Valid() && old(s.trace) <= s.trace
    ensures s.World() == old(s.World()).(git := s.repo.git, nonce := s.repo.nonce)
    ensures clear ==> AtRest(s.World()) || s.repo.git.misreads > old(s.repo.git.misreads)
    ensures !clear ==> !AtRest(s.World()) && !Undisturbed(s.repo.git)
  {
    if s.store.plans[s.row].head.Some? {
      return true;
    }
    var tip := s.ReadTip();
    if Undisturbed(s.repo.git) {
      RestNow(s);
    }
    return tip.None?;
  }

  lemma FailureIsStored(s: Session)
    requires s.Valid() && HasLast(s.store.plans[s.row]) && Last(s.store.plans[s.row]).state.Failed?
    ensures Last(s.store.plans[s.row]).failure.Some?
  {
    s.SoundRows();
    assert AttemptOk(s.store.plans[s.row], Done(s.store.plans[s.row]), LastIndex(s.store.plans[s.row]));
  }

  /** A failed cycle is reported before the plan runs on; the plan runs only when nothing is owed. */
  method ReportOrRun(s: Session) returns (stop: Option<Report>)
    requires s.Valid() && s.store.plans[s.row].Active() && |s.complexities| == |s.store.plans[s.row].steps|
    requires !AnyAccepting(s.store.plans[s.row])
    modifies s.store, s.reports, s`trace
    ensures s.Valid() && old(s.trace) <= s.trace
    ensures stop.Some? <==> old(Owes(s.World()))
    ensures Halted(s, stop) && (stop.Some? ==> s.store.plans == old(s.store.plans))
    ensures stop.Some? ==> HasLast(stop.value.rows) && stop.value.failure == Last(stop.value.rows).failure
    ensures stop.None? ==> s.World() == old(s.World()).(plan := old(s.store.plans[s.row]).(state := PlanState.Running))
  {
    var p := s.store.plans[s.row];
    var owes := OwesReport(s, if Done(p) < |s.complexities| then s.complexities[Done(p)] else Low);
    if owes {
      NothingRuns(s);
      FailureIsStored(s);
      var r := Finish(s, None, Last(p).failure.GetOr("internal_error: step failed"));
      return Some(r);
    }
    assert Announced(s.World()) by {
      s.Sound();
    }
    s.MarkPlan(PlanState.Running);
    return None;
  }

  /** The gates between reconciliation and the step loop. */
  method PassGates(s: Session) returns (stop: Option<Report>)
    requires s.Valid() && s.store.plans[s.row].Active() && |s.complexities| == |s.store.plans[s.row].steps|
    requires !AnyAccepting(s.store.plans[s.row]) && (s.store.plans[s.row].head.Some? ==> AtRest(s.World()))
    modifies s.store, s.repo, s.reports, s`trace
    ensures s.Valid() && old(s.trace) <= s.trace
    ensures s.store.plans[s.row] == old(s.store.plans[s.row]).(state := s.store.plans[s.row].state)
    ensures stop.None? ==> s.store.plans[s.row].state.Running? && (AtRest(s.World()) || s.repo.git.misreads > old(s.repo.git.misreads))
    ensures Halted(s, stop)
    ensures Quiet(old(s.repo.git), s.repo.git) ==> (stop.Some? <==> old(Owes(s.World())))
  {
    var clear := BranchGate(s);
    if !clear {
      var r := Stop(s, "the branch already exists but this plan has accepted nothing");
      return Some(r);
    }
    stop := ReportOrRun(s);
  }

  /** Past reconciliation: leftovers of dead processes are pruned, then the gates decide. */
  method PruneAndPass(s: Session) returns (stop: Option<Report>)
    requires s.Valid() && s.store.plans[s.row].Active() && |s.complexities| == |s.store.plans[s.row].steps|
    requires !AnyAccepting(s.store.plans[s.row]) && (s.store.plans[s.row].head.Some? ==> AtRest(s.World()))
    modifies s.store, s.repo, s.snapshots, s.reports, s`trace
    ensures s.Valid() && old(s.trace) <= s.trace && s.snapshots.held == {}
    ensures s.store.plans[s.row] == old(s.store.plans[s.row]).(state := s.store.plans[s.row].state)
    ensures stop.None? ==> s.store.plans[s.row].state.Running? && (AtRest(s.World()) || s.repo.git.misreads > old(s.repo.git.misreads))
    ensures Halted(s, stop)
    ensures Quiet(old(s.repo.git), s.repo.git) ==> (stop.Some? <==> old(Owes(s.World())))
  {
    NothingNeeded(s.store.plans[s.row]);
    PruneSnapshots(s, true);
    stop := PassGates(s);
  }

  /** Reconciliation, or the end of the invocation; a refusal leaves the snapshots where they are. */
  method ReconcileOrStop(s: Session, recovery: Effort) returns (stop: Option<Report>)
    requires s.Valid() && s.store.plans[s.row].Active()
    modifies s.store, s.repo, s.reports, s`trace
    ensures s.Valid() && old(s.trace) <= s.trace && Grown(old(s.repo.git), s.repo.git) && Halted(s, stop)
    ensures stop.None? ==> s.World() == old(s.World()).(plan := s.store.plans[s.row], git := s.repo.git, nonce := s.repo.nonce)
    ensures stop.None? ==> FurtherOn(old(s.store.plans[s.row]), s.store.plans[s.row]) && !AnyAccepting(s.store.plans[s.row])
    ensures stop.None? && s.store.plans[s.row].head.Some? ==> AtRest(s.World())
    ensures |s.store.plans[s.row].steps| == |old(s.store.plans[s.row].steps)|
    ensures Done(s.store.plans[s.row]) >= Done(old(s.store.plans[s.row]))
    ensures Quiet(old(s.repo.git), s.repo.git) ==> (stop.None? <==> !old(Interrupted(s.World())) || recovery.Succeeds())
  {
    var error := Reconcile(s, recovery);
    if error.Some? {
      SameRows(s.store.plans[s.row], PlanState.Failed);
      var r := Stop(s, error.value);
      return Some(r);
    }
    return None;
  }

  /** What reconciliation recorded is not owed: the step after it has not been attempted. */
  lemma OwesFurther(w: World, v: World)
    requires FurtherOn(w.plan, v.plan) && v.reports == w.reports && Owes(v)
    ensures Owes(w)
  {
  }

  /** Everything before the step loop: reconciliation, pruning and the gates. */
  method Startup(s: Session, recovery: Effort) returns (stop: Option<Report>)
    requires s.Valid() && s.store.plans[s.row].Active() && |s.complexities| == |s.store.plans[s.row].steps|
    modifies s.store, s.repo, s.snapshots, s.reports, s`trace
    ensures s.Valid() && old(s.trace) <= s.trace && Halted(s, stop)
    ensures |s.store.plans[s.row].steps| == |s.complexities|
    ensures Done(s.store.plans[s.row]) >= Done(old(s.store.plans[s.row]))
    ensures stop.None? ==> s.store.plans[s.row].state.Running? && !AnyAccepting(s.store.plans[s.row])
    ensures stop.None? ==> AtRest(s.World()) || s.repo.git.misreads > old(s.repo.git.misreads)
    ensures s.snapshots.held == {} || (stop.Some? && s.snapshots.held == old(s.snapshots.held))
    ensures Quiet(old(s.repo.git), s.repo.git) && recovery.Succeeds() && stop.Some? ==> old(Owes(s.World()))
    ensures Quiet(old(s.repo.git), s.repo.git) && old(Interrupted(s.World())) && stop.None? ==> recovery.Succeeds()
  {
    ghost var w := s.World();
    stop := ReconcileOrStop(s, recovery);
    if stop.Some? {
      return;
    }
    ghost var v, k := s.World(), |s.trace| - 1;
    stop := PruneAndPass(s);
    SameRows(v.plan, s.store.plans[s.row].state);
    s.GrowsAlong(k);
    if Quiet(w.git, s.repo.git) {
      QuietParts(w.git, v.git, s.repo.git);
      if Owes(v) {
        OwesFurther(w, v);
      }
    }
  }

  // ---------------------------------------------------------------- the step loop

  /** The attempt selection chose is live: the one that was running, counted again, or a new one. */
  ghost predicate Begun(p: PlanRecord, q: PlanRecord, choice: Choice) {
    && q.state == p.state && |q.steps| == |p.steps| && Done(q) == Done(p) && HasLast(q) && Last(q).state.Running?
    && (Last(q).Kind().Stronger? <==> choice.Stronger())
    && (if choice.Reuse? then
          HasLast(p) && q == WithAttempt(p, Done(p), LastIndex(p), Last(p).(runs := Last(p).runs + 1))
        else
          Done(p) < |p.steps| && q == Started(p, Done(p), NewAttempt(Last(q).id, choice.profile, choice.retryOf, choice.parent)))
  }

  lemma BegunByReuse(p: PlanRecord, choice: Choice)
    requires HasLast(p) && Last(p).state.Running? && choice.Reuse? && choice.kind == Last(p).Kind()
    ensures Begun(p, WithAttempt(p, Done(p), LastIndex(p), Last(p).(runs := Last(p).runs + 1)), choice)
  {
    DoneUnique(WithAttempt(p, Done(p), LastIndex(p), Last(p).(runs := Last(p).runs + 1)), Done(p));
  }

  lemma BegunByStart(p: PlanRecord, choice: Choice, id: AttemptId)
    requires Done(p) < |p.steps| && choice.Start?
    ensures Begun(p, Started(p, Done(p), NewAttempt(id, choice.profile, choice.retryOf, choice.parent)), choice)
  {
    DoneUnique(Started(p, Done(p), NewAttempt(id, choice.profile, choice.retryOf, choice.parent)), Done(p));
  }

  /** Starts the selected attempt, or counts another run of the one a dead process left running. */
  method BeginAttempt(s: Session, complexity: Complexity, choice: Choice)
    requires s.Valid() && s.store.plans[s.row].state.Running? && !AnyAccepting(s.store.plans[s.row])
    requires Chosen(s.store.plans[s.row], complexity) == Some(choice)
    requires Done(s.store.plans[s.row]) < |s.complexities| && complexity == s.complexities[Done(s.store.plans[s.row])]
    modifies s.store, s.repo, s`trace
    ensures s.Valid() && old(s.trace) <= s.trace
    ensures s.reports.Contents() == old(s.reports.Contents()) && s.repo.git == old(s.repo.git)
    ensures Begun(old(s.store.plans[s.row]), s.store.plans[s.row], choice)
  {
    ghost var p := s.store.plans[s.row];
    SelectionNow(s, complexity);
    if choice.Reuse? {
      BegunByReuse(p, choice);
      s.CountRecoveryRun();
    } else {
      BegunByStart(p, choice, s.repo.nonce);
      var id := s.Start(complexity, choice);
    }
  }

  /** The failure is stored and nothing of the run is kept. */
  method FailAndPrune(s: Session, text: string)
    requires s.Valid() && s.store.plans[s.row].state.Running? && CanFail(s.World())
    modifies s.store, s.snapshots, s`trace
    ensures s.Valid() && old(s.trace) <= s.trace && s.snapshots.held == {}
    ensures var p := old(s.store.plans[s.row]); s.store.plans[s.row] == Stopped(p, Done(p), LastIndex(p), text)
    ensures Done(s.store.plans[s.row]) == old(Done(s.store.plans[s.row])) && HasLast(s.store.plans[s.row])
    ensures !AnyAccepting(s.store.plans[s.row]) && !AnyRunning(s.store.plans[s.row])
  {
    var p := s.store.plans[s.row];
    DoneUnique(Stopped(p, Done(p), LastIndex(p), text), Done(p));
    s.Fail(text);
    NothingRuns(s);
    NothingNeeded(s.store.plans[s.row]);
    PruneSnapshots(s, false);
  }

  /** One stronger retry of a failed normal attempt, or the end of the invocation. */
  method RetryOrStop(s: Session, complexity: Complexity, text: string) returns (stop: Option<Report>)
    requires s.Valid() && s.store.plans[s.row].state.Failed?
    requires HasLast(s.store.plans[s.row]) && !AnyAccepting(s.store.plans[s.row]) && !AnyRunning(s.store.plans[s.row])
    requires Last(s.store.plans[s.row]).state.Failed?
    modifies s.store, s.reports, s`trace
    ensures stop.Some? ==> stop.value.failure == Some(text)
    ensures s.Valid() && old(s.trace) <= s.trace
    ensures s.store.plans[s.row] == old(s.store.plans[s.row]).(state := s.store.plans[s.row].state)
    ensures stop.None? ==> s.store.plans[s.row].state.Running?
    ensures stop.None? <==>
              Last(old(s.store.plans[s.row])).Kind().Normal? && RetryableText(Last(old(s.store.plans[s.row])).failure)
    ensures Halted(s, stop)
    ensures stop.None? ==> Budget(s.store.plans[s.row]) == 1
  {
    var p := s.store.plans[s.row];
    var retry := NextAttempt(p.steps[Done(p)], complexity, p.Tip());
    SelectionNow(s, complexity);
    if retry.Some? && retry.value.Stronger() {
      SameRows(p, PlanState.Running);
      s.MarkPlan(PlanState.Running);
      return None;
    }
    var r := Finish(s, None, text);
    return Some(r);
  }

  /** A stronger attempt may do better. */
  predicate ModelCaused(c: FailureCategory) {
    c in {AgentFailed, InvalidChange, ClosureViolation, RedInvalid, VerificationFailed, ReviewBlocked}
  }

  /** How the last attempt ends: recorded with its commit, or failed for the reason the run gave. */
  ghost predicate Ended(q: PlanRecord, r: PlanRecord, o: Outcome, stop: Option<Report>) {
    && HasLast(q)
    && if o.commit.Some? then
         && r == Recorded(q, Done(q), LastIndex(q), o.commit.value).(state := r.state) && Done(r) == Done(q) + 1
         && (stop.None? <==> o.succeeded)
       else
         && r == Stopped(q, Done(q), LastIndex(q), FailureText(o.category, o.message)).(state := r.state) && Done(r) == Done(q)
         && (stop.None? <==> Last(q).Kind().Normal? && ModelCaused(o.category))
         && (stop.Some? ==> stop.value.failure == Some(FailureText(o.category, o.message)))
  }

  lemma RetryableIsModelCaused(c: FailureCategory)
    ensures c in RETRYABLE <==> ModelCaused(c)
  {
  }

  /** After a failed run: stop, unless the one stronger retry is still unspent. */
  method AfterFailure(s: Session, complexity: Complexity, o: Outcome) returns (stop: Option<Report>)
    requires s.Valid() && s.store.plans[s.row].state.Running? && CanFail(s.World()) && o.commit.None?
    modifies s.store, s.snapshots, s.reports, s`trace
    ensures s.Valid() && old(s.trace) <= s.trace
    ensures |s.store.plans[s.row].steps| == |old(s.store.plans[s.row].steps)|
    ensures stop.None? ==>
              var p, q := old(s.store.plans[s.row]), s.store.plans[s.row];
              && q.state.Running? && !AnyAccepting(q) && Done(q) == Done(p) < |q.steps|
              && Last(p).Kind().Normal? && Budget(q) == 1
    ensures Halted(s, stop) && Ended(old(s.store.plans[s.row]), s.store.plans[s.row], o, stop)
    ensures s.snapshots.held == {}
  {
    var text := FailureText(o.category, o.message);
    FailAndPrune(s, text);
    SameRows(s.store.plans[s.row], PlanState.Running);
    RetryableRoundTrip(o.category, o.message);
    RetryableIsModelCaused(o.category);
    stop := RetryOrStop(s, complexity, text);
  }

  lemma CommitEnds(q: PlanRecord, r: PlanRecord, o: Outcome, stop: Option<Report>, state: PlanState)
    requires HasLast(q) && o.commit.Some? && (stop.None? <==> o.succeeded)
    requires r == Recorded(q, Done(q), LastIndex(q), o.commit.value) && Done(r) == Done(q) + 1
    ensures Ended(q, r.(state := state), o, stop)
  {
    SameRows(r, state);
  }

  /** The commit is recorded and nothing of the run is kept. */
  method RecordAndPrune(s: Session, c: CommitId)
    requires s.Valid() && s.store.plans[s.row].state.Running? && Enabled(s.World(), CompleteAcceptance(c))
    modifies s.store, s.snapshots, s`trace
    ensures s.Valid() && old(s.trace) <= s.trace && s.snapshots.held == {}
    ensures var p := old(s.store.plans[s.row]); s.store.plans[s.row] == Recorded(p, Done(p), LastIndex(p), c)
    ensures
      var p, q := old(s.store.plans[s.row]), s.store.plans[s.row];
      && Done(q) == Done(p) + 1 && |q.steps| == |p.steps| && q.head == Some(c) && q.state.Running?
      && !AnyAccepting(q) && !AnyRunning(q)
  {
    RecordedNow(s, c);
    s.Complete(c);
    NothingRuns(s);
    NothingNeeded(s.store.plans[s.row]);
    PruneSnapshots(s, false);
  }

  /** The acceptance stands; the invocation goes on only if the executor could clean up. */
  method StopIfUnclean(s: Session, ghost q: PlanRecord, o: Outcome) returns (stop: Option<Report>)
    requires s.Valid() && s.store.plans[s.row].state.Running? && !AnyRunning(s.store.plans[s.row])
    requires HasLast(q) && o.commit.Some?
    requires s.store.plans[s.row] == Recorded(q, Done(q), LastIndex(q), o.commit.value) && Done(s.store.plans[s.row]) == Done(q) + 1
    modifies s.store, s.reports, s`trace
    ensures s.Valid() && old(s.trace) <= s.trace
    ensures stop.None? ==> s.store.plans == old(s.store.plans)
    ensures |s.store.plans[s.row].steps| == |q.steps|
    ensures Halted(s, stop) && Ended(q, s.store.plans[s.row], o, stop)
  {
    ghost var r := s.store.plans[s.row];
    if o.succeeded {
      CommitEnds(q, r, o, None, PlanState.Running);
      return None;
    }
    var report := Stop(s, "the step failed after its commit was accepted");
    CommitEnds(q, r, o, Some(report), PlanState.Failed);
    return Some(report);
  }

  /** After a commit: record it, and stop only if the executor could not clean up. */
  method AfterCommit(s: Session, o: Outcome) returns (stop: Option<Report>)
    requires s.Valid() && s.store.plans[s.row].state.Running? && o.commit.Some?
    requires Enabled(s.World(), CompleteAcceptance(o.commit.value))
    modifies s.store, s.snapshots, s.reports, s`trace
    ensures s.Valid() && old(s.trace) <= s.trace
    ensures |s.store.plans[s.row].steps| == |old(s.store.plans[s.row].steps)|
    ensures stop.None? ==> s.store.plans[s.row].state.Running? && !AnyAccepting(s.store.plans[s.row])
    ensures Halted(s, stop) && Ended(old(s.store.plans[s.row]), s.store.plans[s.row], o, stop)
    ensures s.snapshots.held == {}
  {
    ghost var q := s.store.plans[s.row];
    RecordAndPrune(s, o.commit.value);
    stop := StopIfUnclean(s, q, o);
  }

  /** The attempt of the first pending step that a dead process left running runs again, or else a new one runs. */
  ghost predicate AttemptRuns(p: PlanRecord, q: PlanRecord) {
    && |q.steps| == |p.steps| && Done(q) == Done(p) && HasLast(q)
    && if HasLast(p) && Last(p).state.Running? then LastIndex(q) == LastIndex(p) && Last(q).runs == Last(p).runs + 1
       else |q.steps[Done(p)].attempts| == |p.steps[Done(p)].attempts| + 1 && Last(q).runs == 1
  }

  /** What a run of the last attempt reports: its phases' error, or else what became of its candidate. */
  ghost predicate Produced(q: PlanRecord, run: Run, o: Outcome)
    requires HasLast(q)
  {
    match run.phaseError
    case Some(e) => o == Outcome(None, false, e.category, e.message)
    case None =>
      && Last(q).candidate == Some(run.candidate)
      && (o.succeeded <==> o.commit.Some? && run.clean)
      && (o.commit.None? ==> o.category == InternalError)
  }

  /** Begins the selected attempt and hands it to the executor. */
  method RunAttempt(s: Session, complexity: Complexity, choice: Choice, run: Run) returns (o: Outcome)
    requires s.Valid() && s.store.plans[s.row].state.Running? && !AnyAccepting(s.store.plans[s.row])
    requires Chosen(s.store.plans[s.row], complexity) == Some(choice)
    requires Done(s.store.plans[s.row]) < |s.complexities| && complexity == s.complexities[Done(s.store.plans[s.row])]
    modifies s.store, s.repo, s.snapshots, s`trace, s`ran
    ensures s.Valid() && old(s.trace) <= s.trace && s.ran == old(s.ran) + [run]
    ensures
      var p, q := old(s.store.plans[s.row]), s.store.plans[s.row];
      && q.state.Running? && AttemptRuns(p, q)
      && (Last(q).Kind().Stronger? <==> choice.Stronger())
      && Produced(q, run, o)
    ensures o.commit.Some? ==> Enabled(s.World(), CompleteAcceptance(o.commit.value))
    ensures o.commit.None? ==> CanFail(s.World())
    ensures Grown(old(s.repo.git), s.repo.git)
    ensures Quiet(old(s.repo.git), s.repo.git) ==> (o.commit.Some? <==> run.Commits())
  {
    SelectionNow(s, complexity);
    BeginAttempt(s, complexity, choice);
    o := Execute(s, run);
  }

  /** Executor calls one invocation can still make. */
  function Remaining(p: PlanRecord): (calls: nat)
    ensures calls <= 2 * (|p.steps| - Done(p))
  {
    if Done(p) == |p.steps| then 0 else 2 * (|p.steps| - Done(p) - 1) + Budget(p)
  }

  /** What a run's outcome leads to: a step done, its stronger retry due, or the end of the invocation. */
  method AfterRun(s: Session, complexity: Complexity, o: Outcome) returns (stop: Option<Report>)
    requires s.Valid() && s.store.plans[s.row].state.Running? && HasLast(s.store.plans[s.row])
    requires if o.commit.Some? then Enabled(s.World(), CompleteAcceptance(o.commit.value)) else CanFail(s.World())
    modifies s.store, s.snapshots, s.reports, s`trace
    ensures s.Valid() && old(s.trace) <= s.trace && s.snapshots.held == {} && Halted(s, stop)
    ensures |s.store.plans[s.row].steps| == |old(s.store.plans[s.row].steps)|
    ensures stop.None? ==>
              var p, q := old(s.store.plans[s.row]), s.store.plans[s.row];
              && q.state.Running? && !AnyAccepting(q)
              && (o.commit.None? ==> Last(p).Kind().Normal? && Budget(q) == 1)
    ensures Ended(old(s.store.plans[s.row]), s.store.plans[s.row], o, stop)
  {
    if o.commit.None? {
      stop := AfterFailure(s, complexity, o);
    } else {
      stop := AfterCommit(s, o);
    }
  }

  /** The measure falls by the step that is done, or by the retry that is spent. */
  lemma TurnDrops(p: PlanRecord, q: PlanRecord, choice: Choice)
    requires |p.steps| == |q.steps| && Done(p) < |p.steps| && Budget(p) == if choice.Stronger() then 1 else 2
    requires Done(q) == Done(p) + 1 || (Done(q) == Done(p) && !choice.Stronger() && Budget(q) == 1)
    ensures Remaining(q) < Remaining(p)
  {
  }

  /** The attempt is accepted: its own candidate is the head, and only a failed cleanup stops the invocation. */
  ghost predicate RanWell(q: PlanRecord, a: AttemptRecord, run: Run, stop: Option<Report>) {
    && run.phaseError.None? && a.state.Completed? && a.candidate == Some(run.candidate)
    && a.commit.Some? && q.head == a.commit && (stop.None? <==> run.clean)
  }

  /** The attempt has failed for its run's reason, or for the harness's own; only a normal attempt's model can retry. */
  ghost predicate RanBadly(a: AttemptRecord, run: Run, stop: Option<Report>) {
    && a.state.Failed? && a.failure.Some? && (stop.Some? ==> stop.value.failure == a.failure)
    && match run.phaseError
       case Some(e) =>
         && a.failure == Some(Name(e.category) + ": " + e.message)
         && (stop.None? <==> a.retryOf.None? && ModelCaused(e.category))
       case None => UpToColon(a.failure.value) == "internal_error" && stop.Some?
  }

  /** What one executor run does to the first pending step and to the invocation. */
  ghost predicate Turned(p: PlanRecord, q: PlanRecord, run: Run, stop: Option<Report>) {
    var n := Done(p);
    && n < |p.steps| == |q.steps| && q.steps[n].attempts != []
    && |q.steps[n].attempts| == |p.steps[n].attempts| + (if HasLast(p) && Last(p).state.Running? then 0 else 1)
    && At(q, n, |q.steps[n].attempts| - 1).runs == (if HasLast(p) && Last(p).state.Running? then Last(p).runs + 1 else 1)
    && if q.steps[n].completed then Done(q) == n + 1 && RanWell(q, At(q, n, |q.steps[n].attempts| - 1), run, stop)
       else Done(q) == n && RanBadly(At(q, n, |q.steps[n].attempts| - 1), run, stop)
  }

  lemma TurnsTo(p: PlanRecord, q: PlanRecord, r: PlanRecord, run: Run, o: Outcome, stop: Option<Report>)
    requires AttemptRuns(p, q) && Produced(q, run, o) && Ended(q, r, o, stop)
    ensures Turned(p, r, run, stop)
  {
    if o.commit.None? {
      RetryableRoundTrip(o.category, o.message);
    }
  }

  /** The invocation has stopped on this run: it reports the run's failure, if the run has one, or it could not clean up. */
  ghost predicate EndsOn(run: Run, r: Report) {
    match run.phaseError
    case Some(e) => r.failure == Some(Name(e.category) + ": " + e.message)
    case None => r.failure.Some?
  }

  lemma TurnEnds(p: PlanRecord, q: PlanRecord, run: Run, stop: Option<Report>)
    requires Turned(p, q, run, stop) && stop.Some? && stop.value.failure.Some?
    ensures EndsOn(run, stop.value)
  {
  }

  /** The chosen attempt's run and what it leads to. */
  method RunChosen(s: Session, complexity: Complexity, choice: Choice, run: Run) returns (stop: Option<Report>)
    requires s.Valid() && s.store.plans[s.row].state.Running? && !AnyAccepting(s.store.plans[s.row])
    requires Chosen(s.store.plans[s.row], complexity) == Some(choice)
    requires Done(s.store.plans[s.row]) < |s.complexities| && complexity == s.complexities[Done(s.store.plans[s.row])]
    modifies s.store, s.repo, s.snapshots, s.reports, s`trace, s`ran
    ensures s.Valid() && old(s.trace) <= s.trace && s.ran == old(s.ran) + [run]
    ensures s.snapshots.held == {} && Halted(s, stop)
    ensures Turned(old(s.store.plans[s.row]), s.store.plans[s.row], run, stop)
    ensures |s.store.plans[s.row].steps| == |old(s.store.plans[s.row]).steps| && old(s.repo.git).misreads <= s.repo.git.misreads
    ensures stop.None? ==>
              var p, q := old(s.store.plans[s.row]), s.store.plans[s.row];
              && q.state.Running? && !AnyAccepting(q)
              && (Done(q) == Done(p) + 1 || (Done(q) == Done(p) && !choice.Stronger() && Budget(q) == 1))
    ensures Quiet(old(s.repo.git), s.repo.git) && run.Succeeds() ==>
              stop.None? && Done(s.store.plans[s.row]) == Done(old(s.store.plans[s.row])) + 1
  {
    ghost var p := s.store.plans[s.row];
    var o := RunAttempt(s, complexity, choice, run);
    ghost var q := s.store.plans[s.row];
    stop := AfterRun(s, complexity, o);
    assert Turned(p, s.store.plans[s.row], run, stop) by {
      TurnsTo(p, q, s.store.plans[s.row], run, o, stop);
    }
  }

  /** One turn of the loop: one executor call, after which a step is done or its stronger retry is due. */
  method RunPending(s: Session, run: Run) returns (stop: Option<Report>)
    requires s.Valid() && s.store.plans[s.row].state.Running? && !AnyAccepting(s.store.plans[s.row])
    requires Done(s.store.plans[s.row]) < |s.store.plans[s.row].steps| == |s.complexities|
    modifies s.store, s.repo, s.snapshots, s.reports, s`trace, s`ran
    ensures s.Valid() && old(s.trace) <= s.trace && s.ran == old(s.ran) + [run]
    ensures s.snapshots.held == {} && Halted(s, stop)
    ensures Turned(old(s.store.plans[s.row]), s.store.plans[s.row], run, stop)
    ensures stop.Some? ==> EndsOn(run, stop.value)
    ensures OnRoute(old(s.store.plans[s.row]), s.store.plans[s.row], s.complexities)
    ensures |s.store.plans[s.row].steps| == |s.complexities| && old(s.repo.git).misreads <= s.repo.git.misreads
    ensures 1 <= Remaining(old(s.store.plans[s.row]))
    ensures stop.None? ==>
              var p, q := old(s.store.plans[s.row]), s.store.plans[s.row];
              && q.state.Running? && !AnyAccepting(q) && Remaining(q) < Remaining(p)
              && (Done(q) == Done(p) + 1 || (Done(q) == Done(p) && Budget(q) == 1))
    ensures Quiet(old(s.repo.git), s.repo.git) && run.Succeeds() ==>
              stop.None? && Done(s.store.plans[s.row]) == Done(old(s.store.plans[s.row])) + 1
  {
    ghost var k := |s.trace| - 1;
    var p := s.store.plans[s.row];
    var complexity := s.complexities[Done(p)];
    SelectionNow(s, complexity);
    var selection := NextAttempt(p.steps[Done(p)], complexity, p.Tip());
    stop := RunChosen(s, complexity, selection.value, run);
    s.RoutedSince(k);
    if stop.None? {
      TurnDrops(p, s.store.plans[s.row], selection.value);
    } else {
      TurnEnds(p, s.store.plans[s.row], run, stop);
    }
  }

  // ---------------------------------------------------------------- completion

  /** The report is made durable first, then the store is emptied, and only then is the plan completed. */
  method CompletePlan(s: Session) returns (r: Report)
    requires s.Valid() && s.store.plans[s.row].state.Running? && Done(s.store.plans[s.row]) == |s.store.plans[s.row].steps|
    modifies s.store, s.snapshots, s.reports, s`trace
    ensures s.Valid() && old(s.trace) <= s.trace
    ensures s.reports.Contents() == old(s.reports.Contents()) + [r]
    ensures r == Report(old(s.store.plans[s.row]).(state := PlanState.Completed), Some(true), None)
    ensures s.store.plans[s.row] == r.rows && s.snapshots.held == {}
  {
    var p := s.store.plans[s.row];
    NothingRuns(s);
    NothingNeeded(p);
    r := Compose(p.(state := PlanState.Completed), Some(true), None);
    s.Publish(r);
    PruneSnapshots(s, false);
    assert s.snapshots.held == {};
    s.MarkPlan(PlanState.Completed);
  }

  /** Every step is accepted: verify the head, and complete only behind a durable report and an empty store. */
  method FinishPlan(s: Session, exported: seq<Snapshot>, verified: bool) returns (r: Report)
    requires s.Valid() && s.store.plans[s.row].state.Running? && Done(s.store.plans[s.row]) == |s.store.plans[s.row].steps|
    modifies s.store, s.snapshots, s.reports, s`trace
    ensures s.Valid() && old(s.trace) <= s.trace
    ensures s.reports.Contents() == old(s.reports.Contents()) + [r]
    ensures s.store.plans[s.row].state == r.rows.state && (r.rows.state.Completed? || r.rows.state.Failed?)
    ensures r.rows == old(s.store.plans[s.row]).(state := r.rows.state) && s.store.plans[s.row] == r.rows
    ensures (r.rows.state.Completed? <==> verified) && r.verified == Some(verified) && s.snapshots.held == {}
  {
    var p := s.store.plans[s.row];
    NothingRuns(s);
    NothingNeeded(p);
    TakeSnapshots(s, exported);
    if !verified {
      SameRows(p, PlanState.Failed);
      s.MarkPlan(PlanState.Failed);
      PruneSnapshots(s, false);
      r := Finish(s, Some(false), "final verification did not pass");
      return;
    }
    r := CompletePlan(s);
  }

  // ---------------------------------------------------------------- the whole invocation

  /** The executor is handed one run after the other. */
  ghost predicate RanInOrder(before: seq<Run>, after: seq<Run>, runs: nat -> Run) {
    before <= after && forall k | |before| <= k < |after| :: after[k] == runs(k - |before|)
  }

  lemma RanOne(before: seq<Run>, middle: seq<Run>, after: seq<Run>, runs: nat -> Run)
    requires RanInOrder(before, middle, runs) && after == middle + [runs(|middle| - |before|)]
    ensures RanInOrder(before, after, runs)
  {
  }

  /** The `for (;;)` loop. It ends: every turn spends a step or the step's one stronger retry. */
  method StepLoop(s: Session, runs: nat -> Run) returns (stop: Option<Report>)
    requires s.Valid() && s.store.plans[s.row].state.Running? && !AnyAccepting(s.store.plans[s.row])
    requires |s.store.plans[s.row].steps| == |s.complexities| && s.snapshots.held == {}
    modifies s.store, s.repo, s.snapshots, s.reports, s`trace, s`ran
    ensures s.Valid() && old(s.trace) <= s.trace && s.snapshots.held == {}
    ensures Halted(s, stop)
    ensures Quiet(old(s.repo.git), s.repo.git) && (forall n :: runs(n).Succeeds()) ==> stop.None?
    ensures |s.ran| <= |old(s.ran)| + Remaining(old(s.store.plans[s.row])) && RanInOrder(old(s.ran), s.ran, runs)
    ensures stop.Some? ==> |s.ran| > |old(s.ran)| && EndsOn(s.ran[|s.ran| - 1], stop.value)
    ensures stop.None? ==> s.store.plans[s.row].state.Running? && Done(s.store.plans[s.row]) == |s.store.plans[s.row].steps|
    ensures |s.store.plans[s.row].steps| == |s.complexities|
  {
    ghost var bound := |s.ran| + Remaining(s.store.plans[s.row]);
    var pending := s.store.NextPendingStep(s.row);
    var n: nat := 0;
    while pending.Some?
      invariant s.Valid() && old(s.trace) <= s.trace && s.snapshots.held == {}
      invariant s.store.plans[s.row].state.Running? && !AnyAccepting(s.store.plans[s.row])
      invariant |s.store.plans[s.row].steps| == |s.complexities|
      invariant pending.Some? <==> Done(s.store.plans[s.row]) < |s.complexities|
      invariant |s.ran| + Remaining(s.store.plans[s.row]) <= bound
      invariant n == |s.ran| - |old(s.ran)| && RanInOrder(old(s.ran), s.ran, runs)
      invariant old(s.repo.git).misreads <= s.repo.git.misreads
      decreases Remaining(s.store.plans[s.row])
    {
      ghost var ran := s.ran;
      stop := RunPending(s, runs(n));
      RanOne(old(s.ran), ran, s.ran, runs);
      n := n + 1;
      if stop.Some? {
        return;
      }
      pending := s.store.NextPendingStep(s.row);
    }
    return None;
  }

  /** The report is that of final verification, or else of the run that stopped the loop. */
  ghost predicate Concluded(r: Report, around: Surroundings, ran: seq<Run>) {
    if r.verified.Some? then r.verified == Some(around.verified) && (r.rows.state.Completed? <==> around.verified)
    else r.rows.state.Failed? && ran != [] && EndsOn(ran[|ran| - 1], r)
  }

  /** The step loop, then final verification unless the loop stopped. */
  method Drive(s: Session, around: Surroundings) returns (r: Report)
    requires s.Valid() && s.store.plans[s.row].state.Running? && !AnyAccepting(s.store.plans[s.row])
    requires |s.store.plans[s.row].steps| == |s.complexities| && s.snapshots.held == {}
    modifies s.store, s.repo, s.snapshots, s.reports, s`trace, s`ran
    ensures s.Valid() && old(s.trace) <= s.trace
    ensures |s.ran| <= |old(s.ran)| + Remaining(old(s.store.plans[s.row])) && RanInOrder(old(s.ran), s.ran, around.runs)
    ensures Concluded(r, around, s.ran) && (r.verified.None? ==> |s.ran| > |old(s.ran)|)
    ensures s.store.plans[s.row] == r.rows && (r.rows.state.Completed? || r.rows.state.Failed?)
    ensures |s.store.plans[s.row].steps| == |s.complexities|
    ensures LatestIs(s.reports, r) && s.snapshots.held == {}
    ensures Quiet(old(s.repo.git), s.repo.git) && around.Favourable() ==> r.rows.state.Completed?
  {
    var stop := StepLoop(s, around.runs);
    if stop.Some? {
      return stop.value;
    }
    r := FinishPlan(s, around.exported, around.verified);
  }

  /** A cancelled plan is described, a completed one answered with its stored report; neither is touched. */
  method AnswerRetired(s: Session) returns (r: Report)
    requires s.Valid() && !s.store.plans[s.row].Active()
    ensures r.rows == s.store.plans[s.row]
    ensures r.rows.state.Completed? ==> LatestIs(s.reports, r) && r.verified == Some(true)
  {
    var p := s.store.plans[s.row];
    if p.state.Cancelled? {
      return Compose(p, None, Some("the plan was cancelled"));
    }
    assert FinalReport(s.World()) by {
      s.Sound();
    }
    assert p == p.(state := PlanState.Completed);
    var stored := s.reports.Latest();
    return stored.value;
  }

  /** Once the rows as they are have been published, no report of them is owed. */
  lemma ReportedIsNotOwed(w: World)
    requires w.reports != [] && w.reports[|w.reports| - 1].rows == w.plan
    ensures !Owes(w)
  {
    if HasLast(w.plan) {
      OwnRowsList(w.reports[|w.reports| - 1], w.plan);
    }
  }

  /** A live plan's invocation. */
  method InvokeLive(s: Session, around: Surroundings) returns (r: Report)
    requires s.Valid() && |s.store.plans[s.row].steps| == |s.complexities| && s.store.plans[s.row].Active()
    modifies s.store, s.repo, s.snapshots, s.reports, s`trace, s`ran
    ensures s.Valid() && old(s.trace) <= s.trace
    ensures |s.ran| <= |old(s.ran)| + 2 * (|s.complexities| - Done(old(s.store.plans[s.row]))) && RanInOrder(old(s.ran), s.ran, around.runs)
    ensures old(s.store.plans[s.row]).Active() && r.rows.state.Completed? ==> around.verified
    ensures s.store.plans[s.row] == r.rows && |s.store.plans[s.row].steps| == |s.complexities|
    ensures LatestIs(s.reports, r) && (r.rows.state.Completed? || r.rows.state.Failed?)
    ensures s.snapshots.held == {} || s.snapshots.held == old(s.snapshots.held)
    ensures Quiet(old(s.repo.git), s.repo.git) && around.Favourable() ==> r.rows.state.Completed? || old(Owes(s.World()))
    ensures Quiet(old(s.repo.git), s.repo.git) && old(Interrupted(s.World())) && r.rows.state.Completed? ==> around.recovery.Succeeds()
  {
    ghost var w, k := s.World(), |s.trace| - 1;
    var stop := Startup(s, around.recovery);
    if stop.Some? {
      return stop.value;
    }
    MisreadsSince(s, w, k);
    s.GrowsAlong(k);
    ghost var v, l := s.World(), |s.trace| - 1;
    r := Drive(s, around);
    MisreadsSince(s, v, l);
    s.GrowsAlong(l);
    Parts(w.git, v.git, s.repo.git);
  }

  /**
   * One invocation against a registered plan. What it returns is what it left on disk, and apart from a refused
   * recovery it leaves no snapshot behind. When nobody else has moved the branch and no read and nothing outside
   * fails, it completes the plan from wherever a crash left it, unless it still owes the report of an earlier failed
   * cycle; afterwards it owes none.
   */
  method Invoke(s: Session, around: Surroundings) returns (r: Report)
    requires s.Valid() && |s.store.plans[s.row].steps| == |s.complexities|
    modifies s.store, s.repo, s.snapshots, s.reports, s`trace, s`ran
    ensures s.Valid() && old(s.trace) <= s.trace && Grown(old(s.repo.git), s.repo.git)
    ensures |s.ran| <= |old(s.ran)| + 2 * (|s.complexities| - Done(old(s.store.plans[s.row]))) && RanInOrder(old(s.ran), s.ran, around.runs)
    ensures OnRoute(old(s.store.plans[s.row]), s.store.plans[s.row], s.complexities)
    ensures old(s.store.plans[s.row]).Active() && r.rows.state.Completed? ==> around.verified
    ensures !old(s.store.plans[s.row]).Active() ==>
              s.World() == old(s.World()) && s.trace == old(s.trace)
    ensures s.store.plans[s.row] == r.rows && |s.store.plans[s.row].steps| == |s.complexities|
    ensures old(s.store.plans[s.row]).state.Completed? ==> r.verified == Some(true)
    ensures !old(s.store.plans[s.row]).state.Cancelled? ==> LatestIs(s.reports, r) && !r.rows.state.Cancelled? && !Owes(s.World())
    ensures old(s.store.plans[s.row]).Active() ==> s.snapshots.held == {} || s.snapshots.held == old(s.snapshots.held)
    ensures old(s.store.plans[s.row]).Active() && Quiet(old(s.repo.git), s.repo.git) && around.Favourable() ==>
              r.rows.state.Completed? || old(Owes(s.World()))
  {
    if !s.store.plans[s.row].Active() {
      r := AnswerRetired(s);
    } else {
      ghost var w, k := s.World(), |s.trace| - 1;
      r := InvokeLive(s, around);
      GrownSince(s, w, k);
      s.RoutedSince(k);
    }
    if LatestIs(s.reports, r) {
      ReportedIsNotOwed(s.World());
    }
  }

  /**
   * From any world a crash has left of a live plan, two invocations with nobody else on the branch, no read and
   * nothing outside failing, complete the plan.
   */
  method InvokeTwice(s: Session, first: Surroundings, second: Surroundings) returns (r: Report)
    requires s.Valid() && |s.store.plans[s.row].steps| == |s.complexities| && s.store.plans[s.row].Active()
    modifies s.store, s.repo, s.snapshots, s.reports, s`trace, s`ran
    ensures s.Valid() && old(s.trace) <= s.trace && Grown(old(s.repo.git), s.repo.git)
    ensures s.store.plans[s.row] == r.rows
    ensures Quiet(old(s.repo.git), s.repo.git) && first.Favourable() && second.Favourable() ==> r.rows.state.Completed?
  {
    r := Invoke(s, first);
    ghost var g := s.repo.git;
    r := Invoke(s, second);
    if Quiet(old(s.repo.git), s.repo.git) {
      QuietParts(old(s.repo.git), g, s.repo.git);
    }
  }

  /** What a plan can find when it is registered: any history of the branch, any reports, any snapshots. */
  ghost predicate Registrable(store: StateStore, repo: Repository, snapshots: ArtifactStore, reports: ReportDirectory, input: RegisterInput)
    requires reports.Valid()
    reads store, repo, snapshots, reports
  {
    if Known(store.plans, input.repo, input.manifest) then
      forall row: nat | row < |store.plans| ::
        From(store.plans[row], input.repo, input.manifest) ==>
          SoundRow(store, repo, snapshots, reports, row) && |store.plans[row].steps| == |input.steps|
    else
      Init(World(NewPlan(input), repo.git, snapshots.held, reports.Contents(), repo.nonce))
  }

  /**
   * The writes of an invocation form a run of the protocol with the invariant in every world, in each of which every
   * attempt the invocation has started has the profile that fits its step.
   */
  ghost predicate Told(trace: seq<World>, complexities: seq<Complexity>) {
    && IsRun(trace) && AllSound(trace)
    && forall k: nat | k < |trace| :: OnRoute(trace[0].plan, trace[k].plan, complexities)
  }

  /** The invocation of a process that has written nothing yet, told by its trace. */
  method RunSession(s: Session, around: Surroundings) returns (r: Report, ghost trace: seq<World>)
    requires s.Valid() && s.trace == [s.World()] && s.ran == [] && |s.store.plans[s.row].steps| == |s.complexities|
    modifies s.store, s.repo, s.snapshots, s.reports, s`trace, s`ran
    ensures s.Valid() && s.store.plans[s.row] == r.rows
    ensures Told(trace, s.complexities) && trace[0] == old(s.World()) && trace[|trace| - 1] == s.World()
    ensures |s.ran| <= 2 * (|s.complexities| - Done(trace[0].plan)) && RanInOrder([], s.ran, around.runs)
    ensures trace[0].plan.Active() ==> LatestIs(s.reports, r) && (r.rows.state.Completed? ==> around.verified)
    ensures trace[0].plan.Active() && !Owes(trace[0]) && Quiet(trace[0].git, s.repo.git) && around.Favourable() ==>
              r.rows.state.Completed?
  {
    ghost var w := s.World();
    r := Invoke(s, around);
    trace := s.trace;
    assert trace[0] == w;
    forall k: nat | k < |trace| ensures OnRoute(trace[0].plan, trace[k].plan, s.complexities) {
      RoutedAlong(trace, s.complexities, 0, k);
    }
  }

  /** Registration, and access to the row it answers with. */
  method Open(store: StateStore, repo: Repository, snapshots: ArtifactStore, reports: ReportDirectory, input: RegisterInput,
              complexities: seq<Complexity>)
    returns (r: Result<Session, string>)
    requires store.Valid() && reports.Valid() && Registrable(store, repo, snapshots, reports, input)
    modifies store
    ensures store.Valid()
    ensures r.Err? ==> store.plans == old(store.plans)
    ensures r.Ok? ==>
              var s := r.value;
              && fresh(s) && s.store == store && s.repo == repo && s.snapshots == snapshots && s.reports == reports
              && s.Valid() && s.trace == [s.World()] && |store.plans[s.row].steps| == |input.steps|
              && From(store.plans[s.row], input.repo, input.manifest) && s.complexities == complexities && s.ran == []
              && (if Known(old(store.plans), input.repo, input.manifest) then store.plans == old(store.plans)
                  else IsFresh(store.plans[s.row], input))
  {
    var registered := store.RegisterPlan(input);
    if registered.Err? {
      return Err(registered.error);
    }
    var row := registered.value;
    if store.plans == old(store.plans) {
      assert SoundRow(store, repo, snapshots, reports, row);
    } else {
      InitInv(WorldOf(store, repo, snapshots, reports, row));
    }
    var s := new Session(store, repo, snapshots, reports, row, complexities);
    return Ok(s);
  }

  /**
   * `runPlan`. Either another plan owns the repository and nothing changes, or the durable writes made from
   * registration on form a run of the protocol, wherever it is cut off. With nobody else on the branch, and no read
   * and nothing outside failing, the plan completes.
   */
  method RunPlan(store: StateStore, repo: Repository, snapshots: ArtifactStore, reports: ReportDirectory,
                 input: RegisterInput, complexities: seq<Complexity>, around: Surroundings)
    returns (r: Result<Report, string>, row: nat, ghost trace: seq<World>)
    requires store.Valid() && reports.Valid() && |complexities| == |input.steps|
    requires Registrable(store, repo, snapshots, reports, input)
    modifies store, repo, snapshots, reports
    ensures store.Valid() && reports.Valid()
    ensures r.Err? ==>
              store.plans == old(store.plans) && repo.git == old(repo.git) && snapshots.held == old(snapshots.held)
              && reports.Contents() == old(reports.Contents())
    ensures r.Ok? ==>
              && row < |store.plans| && Told(trace, complexities)
              && trace[0].plan.repo == input.repo && trace[0].plan.manifest == input.manifest
              && (if Known(old(store.plans), input.repo, input.manifest) then
                    row < |old(store.plans)| && trace[0].plan == old(store.plans)[row]
                  else IsFresh(trace[0].plan, input))
              && Shows(trace[|trace| - 1], store, repo, snapshots, reports, row)
              && store.plans[row] == r.value.rows
              && (trace[0].plan.Active() ==> LatestIs(reports, r.value) && (r.value.rows.state.Completed? ==> around.verified))
              && (trace[0].plan.Active() && !Owes(trace[0]) && Quiet(trace[0].git, repo.git) && around.Favourable() ==>
                    r.value.rows.state.Completed?)
  {
    row, trace := 0, [];
    var access := Open(store, repo, snapshots, reports, input, complexities);
    if access.Err? {
      return Err(access.error), row, trace;
    }
    var s := access.value;
    row := s.row;
    var report, run := RunSession(s, around);
    return Ok(report), row, run;
  }
}
