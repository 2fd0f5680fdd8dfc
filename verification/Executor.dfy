/** One executor run of a step, as the coordinator sees it (runStep of src/run/orchestrator.ts). */
module Executor {
  import opened Wrappers
  import opened Failure
  import opened Records
  import opened Commits
  import opened Protocol
  import opened Preservation
  import opened Sessions
  import opened Acceptance
  import opened Recovery

  /** What one executor run reports back. */
  datatype Outcome = Outcome(commit: Option<CommitId>, succeeded: bool, category: FailureCategory, message: string)

  /** Snapshots were taken or dropped, and nothing else happened. */
  twostate predicate OnlySnapshots(s: Session)
    reads s, s.store, s.repo, s.snapshots, s.reports
  {
    && s.Valid() && old(s.trace) <= s.trace
    && old(s.row < |s.store.plans| && s.reports.Valid())
    && s.World() == old(s.World()).(snaps := s.snapshots.held)
  }

  /** The same attempt is live, with its own columns possibly rewritten. */
  ghost predicate SameLive(p: PlanRecord, q: PlanRecord) {
    && HasLast(p) && HasLast(q) && Done(q) == Done(p) && LastIndex(q) == LastIndex(p) && |q.steps| == |p.steps|
    && Last(q).Live() && Last(q).retryOf == Last(p).retryOf && Last(q).profile == Last(p).profile && Last(q).runs == Last(p).runs
    && KeyOf(q, Done(q), LastIndex(q)) == KeyOf(p, Done(p), LastIndex(p))
    && q.state == p.state && q.head == p.head && q.base == p.base && q.steps[Done(q)].id == p.steps[Done(p)].id
  }

  /** Nothing says the live attempt's work is on the branch, and no report has shown it. */
  ghost predicate CanFail(w: World) {
    HasLast(w.plan) && Last(w.plan).Live() && Enabled(w, FailAttempt(""))
  }

  lemma RunningUnlisted(w: World, k: nat)
    requires Inv(w) && HasLast(w.plan) && Last(w.plan).state.Running? && Calm(w.git) && k < |w.reports|
    ensures !Lists(w.reports[k], Last(w.plan).id)
  {
    var p := w.plan;
    assert IsAttempt(p, Done(p), LastIndex(p));
    forall i: nat, j: nat | IsAttempt(w.reports[k].rows, i, j) ensures At(w.reports[k].rows, i, j).id != Last(p).id {
      assert EntryOk(p, At(w.reports[k].rows, i, j));
    }
  }

  lemma RunningCanFail(w: World)
    requires Inv(w) && w.plan.Active() && HasLast(w.plan) && Last(w.plan).state.Running?
    ensures CanFail(w)
  {
    assert IsAttempt(w.plan, Done(w.plan), LastIndex(w.plan));
    if Calm(w.git) {
      forall k: nat | k < |w.reports| ensures !Lists(w.reports[k], Last(w.plan).id) {
        RunningUnlisted(w, k);
      }
    }
  }

  lemma CanFailNow(s: Session)
    requires s.Valid() && s.store.plans[s.row].Active()
    requires HasLast(s.store.plans[s.row]) && Last(s.store.plans[s.row]).state.Running?
    ensures CanFail(s.World())
  {
    s.Sound();
    RunningCanFail(s.World());
  }

  lemma UndisturbedIfLater(g: Git, h: Git)
    requires Grown(g, h)
    ensures Calm(h) ==> Calm(g)
  {
    if Calm(h) {
      UndisturbedEarlier(g, h);
    }
  }

  /** What holds of the live attempt keeps holding while only others touch the repository. */
  lemma StillCanFail(v: World, w: World)
    requires GitOk(v.git, v.nonce) && CanFail(v) && SameLive(v.plan, w.plan) && w.plan.Active()
    requires OnlyOthers(v.git, w.git) && w.reports == v.reports
    ensures CanFail(w)
  {
    NoMoveKept(v.git, w.git, v.nonce, KeyOf(v.plan, Done(v.plan), LastIndex(v.plan)));
    UndisturbedIfLater(v.git, w.git);
  }

  /** The workspace snapshots a run or a final export leaves behind. */
  method TakeSnapshots(s: Session, saved: seq<Snapshot>)
    requires s.Valid() && s.store.plans[s.row].Active()
    modifies s.snapshots, s`trace
    ensures OnlySnapshots(s)
    ensures forall x :: x in s.snapshots.held <==> x in old(s.snapshots.held) || x in saved
  {
    for i := 0 to |saved|
      invariant OnlySnapshots(s)
      invariant forall x :: x in s.snapshots.held <==> x in old(s.snapshots.held) || x in saved[..i]
    {
      s.SaveSnapshot(saved[i]);
    }
  }

  /** A verified candidate is stored and recorded, and the attempt enters `accepting`. */
  method OfferCandidate(s: Session, key: Key, candidate: Snapshot)
    requires s.Valid() && s.store.plans[s.row].Active()
    requires HasLast(s.store.plans[s.row]) && Last(s.store.plans[s.row]).state.Running?
    requires key == KeyOf(s.store.plans[s.row], Done(s.store.plans[s.row]), LastIndex(s.store.plans[s.row]))
    modifies s.store, s.snapshots, s`trace
    ensures s.Valid() && old(s.trace) <= s.trace
    ensures s.World() == old(s.World()).(plan := s.store.plans[s.row], snaps := s.snapshots.held)
    ensures SameLive(old(s.store.plans[s.row]), s.store.plans[s.row])
    ensures Last(s.store.plans[s.row]).state.Accepting? && Last(s.store.plans[s.row]).candidate == Some(candidate)
    ensures s.snapshots.held == old(s.snapshots.held) + {candidate}
  {
    ghost var p := s.store.plans[s.row];
    s.SaveSnapshot(candidate);
    ghost var q := WithAttempt(p, Done(p), LastIndex(p), Last(p).(candidate := Some(candidate), key := Some(key)));
    DoneUnique(q, Done(p));
    s.SaveCandidate(candidate, key);
    assert s.store.plans[s.row] == q && Last(q).candidate == Some(candidate);
    ghost var r := WithAttempt(q, Done(q), LastIndex(q), Last(q).(state := AttemptState.Accepting));
    DoneUnique(r, Done(p));
    s.BeginAcceptance();
    assert s.store.plans[s.row] == r;
  }

  /** While an attempt runs undisturbed, the branch stands where the database says. */
  lemma RunningAtRest(w: World)
    requires Inv(w) && Undisturbed(w.git) && HasLast(w.plan) && Last(w.plan).state.Running?
    ensures AtRest(w)
  {
    forall i: nat, j: nat | IsAttempt(w.plan, i, j) ensures !At(w.plan, i, j).state.Accepting? {
      if At(w.plan, i, j).state.Accepting? {
        LiveIsLast(w.plan, i, j);
      }
    }
    RestWhenUndisturbed(w);
  }

  lemma RunningRests(s: Session)
    requires s.Valid() && HasLast(s.store.plans[s.row]) && Last(s.store.plans[s.row]).state.Running?
    ensures Undisturbed(s.repo.git) ==> AtRest(s.World())
  {
    s.Sound();
    if Undisturbed(s.repo.git) {
      RunningAtRest(s.World());
    }
  }

  /** The commit phase of an executor run, and its teardown. */
  method AcceptCandidate(s: Session, key: Key, run: Run) returns (o: Outcome)
    requires s.Valid() && s.store.plans[s.row].Active()
    requires HasLast(s.store.plans[s.row]) && Last(s.store.plans[s.row]).state.Accepting?
    requires key == KeyOf(s.store.plans[s.row], Done(s.store.plans[s.row]), LastIndex(s.store.plans[s.row]))
    modifies s.repo, s`trace
    ensures s.Valid() && old(s.trace) <= s.trace
    ensures s.World() == old(s.World()).(git := s.repo.git, nonce := s.repo.nonce)
    ensures o.commit.Some? ==> Enabled(s.World(), CompleteAcceptance(o.commit.value))
    ensures o.commit.None? ==> OnlyOthers(old(s.repo.git), s.repo.git)
    ensures o.succeeded <==> o.commit.Some? && run.clean
    ensures o.commit.None? ==> o.category == InternalError
    ensures Grown(old(s.repo.git), s.repo.git)
    ensures Undisturbed(s.repo.git) ==> Undisturbed(old(s.repo.git))
    ensures Quiet(old(s.repo.git), s.repo.git) && old(AtRest(s.World())) ==> (o.commit.Some? <==> run.changes > 0 && run.gitWorks)
  {
    var p := s.store.plans[s.row];
    AcceptingNow(s);
    var accepted := AcceptChanges(s, p.steps[Done(p)].id, key, Last(p).parent, p.head.Some?, true, run.changes, run.gitWorks);
    if Undisturbed(s.repo.git) {
      UndisturbedEarlier(old(s.repo.git), s.repo.git);
    }
    if accepted.Err? {
      return Outcome(None, false, InternalError, accepted.error);
    }
    // Cleanup can fail after the commit was accepted.
    return Outcome(Some(accepted.value), run.clean, InternalError, "");
  }

  /** The end of a run whose phases all went well: the candidate is offered, then accepted. */
  method OfferAndAccept(s: Session, key: Key, run: Run) returns (o: Outcome)
    requires s.Valid() && s.store.plans[s.row].Active()
    requires HasLast(s.store.plans[s.row]) && Last(s.store.plans[s.row]).state.Running?
    requires key == KeyOf(s.store.plans[s.row], Done(s.store.plans[s.row]), LastIndex(s.store.plans[s.row]))
    modifies s.store, s.repo, s.snapshots, s`trace
    ensures s.Valid() && old(s.trace) <= s.trace && s.reports.Contents() == old(s.reports.Contents())
    ensures SameLive(old(s.store.plans[s.row]), s.store.plans[s.row])
    ensures Last(s.store.plans[s.row]).state.Accepting? && Last(s.store.plans[s.row]).candidate == Some(run.candidate)
    ensures s.snapshots.held == old(s.snapshots.held) + {run.candidate}
    ensures o.commit.Some? ==> Enabled(s.World(), CompleteAcceptance(o.commit.value))
    ensures o.commit.None? ==> OnlyOthers(old(s.repo.git), s.repo.git)
    ensures o.succeeded <==> o.commit.Some? && run.clean
    ensures o.commit.None? ==> o.category == InternalError
    ensures Grown(old(s.repo.git), s.repo.git)
    ensures Quiet(old(s.repo.git), s.repo.git) ==> (o.commit.Some? <==> run.changes > 0 && run.gitWorks)
  {
    RunningRests(s);
    OfferCandidate(s, key, run.candidate);
    o := AcceptCandidate(s, key, run);
  }

  /**
   * One executor run of the running attempt. How its phases go is the surroundings'; what is fixed is the order:
   * the candidate is stored, then `accepting`, and only then does Git change.
   */
  method Execute(s: Session, run: Run) returns (o: Outcome)
    requires s.Valid() && s.store.plans[s.row].Active()
    requires HasLast(s.store.plans[s.row]) && Last(s.store.plans[s.row]).state.Running?
    modifies s.store, s.repo, s.snapshots, s`trace, s`ran
    ensures s.Valid() && old(s.trace) <= s.trace && s.ran == old(s.ran) + [run]
    ensures s.reports.Contents() == old(s.reports.Contents())
    ensures SameLive(old(s.store.plans[s.row]), s.store.plans[s.row])
    ensures o.commit.Some? ==> Enabled(s.World(), CompleteAcceptance(o.commit.value))
    ensures o.commit.None? ==> CanFail(s.World())
    ensures o.succeeded <==> o.commit.Some? && run.clean
    ensures Grown(old(s.repo.git), s.repo.git)
    ensures run.phaseError.Some? ==> o == Outcome(None, false, run.phaseError.value.category, run.phaseError.value.message)
    ensures run.phaseError.None? ==>
              Last(s.store.plans[s.row]).state.Accepting? && Last(s.store.plans[s.row]).candidate == Some(run.candidate)
    ensures run.phaseError.None? && o.commit.None? ==> o.category == InternalError
    ensures (forall x | x in run.saved :: x in s.snapshots.held) && (run.phaseError.None? ==> run.candidate in s.snapshots.held)
    ensures Quiet(old(s.repo.git), s.repo.git) ==> (o.commit.Some? <==> run.Commits())
  {
    s.ran := s.ran + [run];
    ghost var w := s.World();
    CanFailNow(s);
    TakeSnapshots(s, run.saved);
    // Any phase up to the review can fail.
    if run.phaseError.Some? {
      return Outcome(None, false, run.phaseError.value.category, run.phaseError.value.message);
    }
    var p := s.store.plans[s.row];
    o := OfferAndAccept(s, KeyOf(p, Done(p), LastIndex(p)), run);
    if o.commit.None? {
      StillCanFail(w, s.World());
    }
  }
}
