/** Finishing an interrupted acceptance, and what a cancelled plan may carry on (src/run/recovery.ts). */
module Recovery {
  import opened Wrappers
  import opened Records
  import opened Commits
  import opened Protocol
  import opened Preservation
  import opened Sessions
  import opened Acceptance

  // ---------------------------------------------------------------- decisions, as functions of one world

  datatype Verdict =
    | Record(commit: CommitId)
    | Retry
    | Refuse

  /** What `finishAcceptance` decides about the accepting attempt when nobody moves the branch meanwhile. */
  function FinishVerdict(p: PlanRecord, g: Git): Verdict
    requires HasLast(p) && GraphOk(g.commits) && (g.branch.Some? ==> g.branch.value in g.commits)
  {
    var a := Last(p);
    if a.key.None? then Refuse
    else
      var existing := FoundOnBranch(g, a.key.value);
      if existing.Some? then
        var commit := g.commits[existing.value];
        if p.steps[Done(p)].id !in commit.steps then Refuse
        else if commit.parent != Some(a.parent) then Refuse
        else if g.branch != existing then Refuse
        else Record(existing.value)
      else if a.candidate.None? then Refuse
      else Retry
  }

  /** The attempt whose interrupted acceptance the branch tip proves. */
  ghost predicate Proves(p: PlanRecord, commit: Commit, i: nat, j: nat)
    requires IsAttempt(p, i, j)
  {
    var a := At(p, i, j);
    a.state.Accepting? && a.key.Some? && a.parent == p.Tip() && a.key.value in commit.keys && p.steps[i].id in commit.steps
  }

  /** `acceptedPlanHead`: the recorded head, unless the tip is the one legitimate mismatch. */
  ghost function AcceptedPlanHead(p: PlanRecord, g: Git): Option<CommitId>
    requires g.branch.Some? ==> g.branch.value in g.commits
  {
    if g.branch.None? || g.branch == p.head then p.head
    else if g.commits[g.branch.value].parent != Some(p.Tip()) then p.head
    else if exists i: nat, j: nat | IsAttempt(p, i, j) :: Proves(p, g.commits[g.branch.value], i, j) then g.branch
    else p.head
  }

  /** With every move of the harness recorded, the branch is at the recorded head. */
  lemma LevelRests(w: World)
    requires GitOk(w.git, w.nonce) && Ledger(w.plan, w.git) && |w.git.moves| == Done(w.plan) && PlanOk(w.plan)
    ensures AtRest(w)
  {
    if w.git.moves != [] {
      assert w.plan.steps[Done(w.plan) - 1].commit == Some(w.git.moves[Done(w.plan) - 1].tip);
    }
  }

  /** Undisturbed, a branch nobody is accepting onto stands exactly where the database says. */
  lemma RestWhenUndisturbed(w: World)
    requires Inv(w) && Undisturbed(w.git) && !AnyAccepting(w.plan)
    ensures AtRest(w)
  {
    if |w.git.moves| == Done(w.plan) + 1 {
      UnrecordedTip(w);
    } else {
      LevelRests(w);
    }
  }

  lemma AcceptingIsLast(p: PlanRecord)
    requires PlanOk(p) && HasLast(p) && Last(p).state.Accepting?
    ensures !AnyRunning(p) && AnyAccepting(p)
  {
    assert IsAttempt(p, Done(p), LastIndex(p)) && At(p, Done(p), LastIndex(p)).state.Accepting?;
    forall i: nat, j: nat | IsAttempt(p, i, j) ensures !At(p, i, j).state.Running? {
      if At(p, i, j).state.Running? {
        LiveIsLast(p, i, j);
      }
    }
  }

  // ---------------------------------------------------------------- the same, step by step

  /** What a refused acceptance leaves: every row, and the ref apart from what others did to it. */
  twostate predicate Untouched(s: Session)
    reads s.store, s.repo
  {
    s.store.plans == old(s.store.plans) && OnlyOthers(old(s.repo.git), s.repo.git)
  }

  /** The session moved on, and neither snapshots nor reports changed. */
  twostate predicate Continues(s: Session)
    reads s, s.store, s.repo, s.snapshots, s.reports
  {
    && s.Valid() && old(s.trace) <= s.trace
    && old(s.row < |s.store.plans| && s.reports.Valid())
    && s.World() == old(s.World()).(plan := s.store.plans[s.row], git := s.repo.git, nonce := s.repo.nonce)
    && Grown(old(s.repo.git), s.repo.git)
  }

  lemma SteadyFind(g: Git, h: Git, before: nat, after: nat, key: Key)
    requires GitOk(g, before) && GitOk(h, after) && Grown(g, h) && Steady(g, h)
    ensures h.branch == g.branch && (g.branch.Some? ==> g.branch.value in g.commits && g.branch.value in h.commits)
    ensures FoundOnBranch(h, key) == FoundOnBranch(g, key)
  {
    SteadyBranch(g, h, before, after);
    BranchExists(g, before);
    if g.branch.Some? {
      FindGrows(g.commits, h.commits, g.branch.value, key);
    }
  }

  /** The commit the branch carries under the key, if the branch exists. */
  method FindForRecovery(s: Session, key: Key) returns (found: Option<CommitId>)
    requires s.Valid()
    modifies s.repo, s`trace
    ensures Continues(s) && Untouched(s)
    ensures found.Some? ==> found.value in s.repo.git.commits && key in s.repo.git.commits[found.value].text
    ensures Steady(old(s.repo.git), s.repo.git) ==>
              && s.repo.git.branch == old(s.repo.git.branch)
              && (old(s.repo.git.branch).Some? ==> old(s.repo.git.branch).value in old(s.repo.git.commits))
              && found == FoundOnBranch(old(s.repo.git), key)
  {
    ghost var g, n := s.repo.git, s.repo.nonce;
    var tip := s.ReadTip();
    ghost var h := s.repo.git;
    if tip.None? {
      if Steady(g, h) {
        SteadyFind(g, h, n, s.repo.nonce, key);
      }
      return None;
    }
    found := s.Search(key);
    OthersTransitive(g, h, s.repo.git);
    if Steady(g, s.repo.git) {
      SteadyFind(g, s.repo.git, n, s.repo.nonce, key);
    }
  }

  /** A fitting commit at the tip is one the protocol lets the database record. */
  lemma RecordableNow(s: Session, c: CommitId)
    requires s.Valid() && s.store.plans[s.row].Active() && HasLast(s.store.plans[s.row]) && Last(s.store.plans[s.row]).state.Accepting?
    requires Carries(s.store.plans[s.row], s.repo.git, c) && s.repo.git.branch == Some(c)
    ensures Enabled(s.World(), CompleteAcceptance(c))
  {
    ReachedWasOnBranch(s.repo.git, s.repo.nonce, c);
  }

  /** Its step, its parent and the branch must agree with the attempt. */
  method CheckTip(s: Session, c: CommitId) returns (error: Option<string>)
    requires s.Valid() && s.store.plans[s.row].Active() && HasLast(s.store.plans[s.row]) && Last(s.store.plans[s.row]).state.Accepting?
    requires c in s.repo.git.commits
    requires var p := s.store.plans[s.row]; KeyOf(p, Done(p), LastIndex(p)) in s.repo.git.commits[c].text
    modifies s.repo, s`trace
    ensures s.Valid() && old(s.trace) <= s.trace
    ensures s.World() == old(s.World()).(git := s.repo.git, nonce := s.repo.nonce)
    ensures OnlyOthers(old(s.repo.git), s.repo.git)
    ensures error.None? ==> Enabled(s.World(), CompleteAcceptance(c))
    ensures Steady(old(s.repo.git), s.repo.git) ==>
              (error.None? <==> Carries(s.store.plans[s.row], old(s.repo.git), c) && old(s.repo.git.branch) == Some(c))
  {
    var p := s.store.plans[s.row];
    ghost var g, n := s.repo.git, s.repo.nonce;
    error := CheckCommit(s, c, p.steps[Done(p)].id, Last(p).parent);
    if error.Some? {
      return;
    }
    ghost var h := s.repo.git;
    assert Carries(p, h, c) && OnlyOthers(g, h);
    var tip := s.ReadTip();
    OthersTransitive(g, h, s.repo.git);
    assert Carries(p, s.repo.git, c);
    if Steady(g, s.repo.git) {
      SteadyBranch(g, s.repo.git, n, s.repo.nonce);
    }
    if tip != Some(c) {
      return Some("the branch is not at the attempt's commit");
    }
    RecordableNow(s, c);
    return None;
  }

  /** The commit exists: it is recorded once its step, its parent and the branch agree with the attempt. */
  method RecordFound(s: Session, c: CommitId) returns (error: Option<string>)
    requires s.Valid() && s.store.plans[s.row].Active() && HasLast(s.store.plans[s.row]) && Last(s.store.plans[s.row]).state.Accepting?
    requires c in s.repo.git.commits
    requires var p := s.store.plans[s.row]; KeyOf(p, Done(p), LastIndex(p)) in s.repo.git.commits[c].text
    modifies s.store, s.repo, s`trace
    ensures Continues(s)
    ensures error.Some? ==> Untouched(s)
    ensures OnlyOthers(old(s.repo.git), s.repo.git)
    ensures
      var p := old(s.store.plans[s.row]);
      && (error.None? ==> s.store.plans[s.row] == Recorded(p, Done(p), LastIndex(p), c) && Carries(p, s.repo.git, c))
      && (Steady(old(s.repo.git), s.repo.git) ==>
            (error.None? <==> Carries(p, old(s.repo.git), c) && old(s.repo.git.branch) == Some(c)))
  {
    error := CheckTip(s, c);
    if error.None? {
      s.Complete(c);
    }
  }

  /** What a retried acceptance meets: the rebuilt change set, if export and diff work, and a Git that works or not. */
  datatype Effort = Effort(changes: Option<nat>, gitWorks: bool) {
    predicate Succeeds() {
      changes.Some? && changes.value > 0 && gitWorks
    }
  }

  /** The retry's own acceptance: the change set is rebuilt from the candidate, which is still in the store. */
  method RetryAcceptance(s: Session, effort: Effort) returns (r: Result<CommitId, string>)
    requires s.Valid() && s.store.plans[s.row].Active() && HasLast(s.store.plans[s.row]) && Last(s.store.plans[s.row]).state.Accepting?
    modifies s.repo, s`trace
    ensures Continues(s) && s.store.plans == old(s.store.plans)
    ensures r.Err? ==> Untouched(s)
    ensures r.Ok? ==> Enabled(s.World(), CompleteAcceptance(r.value))
    ensures Quiet(old(s.repo.git), s.repo.git) && old(AtRest(s.World())) ==> (r.Ok? <==> effort.Succeeds())
    ensures Quiet(old(s.repo.git), s.repo.git) && old(AtRest(s.World())) && r.Ok? ==> s.repo.git.branch == Some(r.value)
  {
    var p := s.store.plans[s.row];
    AcceptingNow(s);
    assert Last(p).candidate.value in s.snapshots.held;
    if effort.changes.None? {
      return Err("cannot rebuild the change set");
    }
    r := AcceptChanges(s, p.steps[Done(p)].id, Last(p).key.value, Last(p).parent, p.head.Some?, true,
                       effort.changes.value, effort.gitWorks);
  }

  /** The commit does not exist: the persisted candidate is accepted again, and the acceptance recorded. */
  method AcceptAgain(s: Session, effort: Effort) returns (error: Option<string>)
    requires s.Valid() && s.store.plans[s.row].Active() && HasLast(s.store.plans[s.row]) && Last(s.store.plans[s.row]).state.Accepting?
    modifies s.store, s.repo, s`trace
    ensures Continues(s)
    ensures error.Some? ==> Untouched(s)
    ensures error.None? ==>
              var p := old(s.store.plans[s.row]);
              s.store.plans[s.row].head.Some?
              && s.store.plans[s.row] == Recorded(p, Done(p), LastIndex(p), s.store.plans[s.row].head.value)
              && Carries(p, s.repo.git, s.store.plans[s.row].head.value)
    ensures Quiet(old(s.repo.git), s.repo.git) && old(AtRest(s.World())) ==> (error.None? <==> effort.Succeeds())
    ensures Quiet(old(s.repo.git), s.repo.git) && old(AtRest(s.World())) && error.None? ==> AtRest(s.World())
  {
    var accepted := RetryAcceptance(s, effort);
    if accepted.Err? {
      return Some(accepted.error);
    }
    s.Complete(accepted.value);
    return None;
  }

  /** The verdict, told from the search's result. */
  lemma FinishVerdictMeans(p: PlanRecord, g: Git, found: Option<CommitId>)
    requires PlanOk(p) && HasLast(p) && Last(p).state.Accepting?
    requires GraphOk(g.commits) && (g.branch.Some? ==> g.branch.value in g.commits)
    requires found == FoundOnBranch(g, KeyOf(p, Done(p), LastIndex(p)))
    ensures FinishVerdict(p, g) ==
            if found.None? then Retry
            else if Carries(p, g, found.value) && g.branch == found then Record(found.value)
            else Refuse
  {
    AcceptingAttempt(p);
  }

  /** In quiet, the search tells an acceptance that is on the branch from one that still has to be made. */
  lemma QuietSearch(w: World, h: Git, later: nat, found: Option<CommitId>)
    requires Inv(w) && HasLast(w.plan) && Last(w.plan).state.Accepting? && GitOk(h, later) && OnlyOthers(w.git, h) && Quiet(w.git, h)
    requires w.git.branch.Some? ==> w.git.branch.value in w.git.commits
    requires Steady(w.git, h) ==> found == FoundOnBranch(w.git, KeyOf(w.plan, Done(w.plan), LastIndex(w.plan)))
    ensures h.branch == w.git.branch && h.moves == w.git.moves
    ensures found == if AtRest(w) then None else w.git.branch
    ensures found.None? ==> AtRest(w)
    ensures found.Some? ==> Carries(w.plan, h, found.value)
  {
    CalmMoves(w.git, h, w.nonce, later);
    UndisturbedLookup(w, KeyOf(w.plan, Done(w.plan), LastIndex(w.plan)));
  }

  lemma QuietSearchNow(s: Session, k: nat, found: Option<CommitId>)
    requires s.Valid() && k < |s.trace|
    requires
      var w := s.trace[k];
      && HasLast(w.plan) && Last(w.plan).state.Accepting? && OnlyOthers(w.git, s.repo.git) && Quiet(w.git, s.repo.git)
      && GraphOk(w.git.commits) && (w.git.branch.Some? ==> w.git.branch.value in w.git.commits)
      && (Steady(w.git, s.repo.git) ==> found == FoundOnBranch(w.git, KeyOf(w.plan, Done(w.plan), LastIndex(w.plan))))
    ensures s.repo.git.branch == s.trace[k].git.branch && s.repo.git.moves == s.trace[k].git.moves
    ensures found == if AtRest(s.trace[k]) then None else s.trace[k].git.branch
    ensures found.None? ==> AtRest(s.trace[k])
    ensures found.Some? ==> Carries(s.trace[k].plan, s.repo.git, found.value)
  {
    assert SoundAt(s.trace, k);
    QuietSearch(s.trace[k], s.repo.git, s.repo.nonce, found);
  }

  lemma VerdictNow(s: Session, g: Git, found: Option<CommitId>)
    requires s.Valid() && HasLast(s.store.plans[s.row]) && Last(s.store.plans[s.row]).state.Accepting?
    requires GraphOk(g.commits) && (g.branch.Some? ==> g.branch.value in g.commits)
    requires
      var p := s.store.plans[s.row];
      found == FoundOnBranch(g, KeyOf(p, Done(p), LastIndex(p)))
    ensures FinishVerdict(s.store.plans[s.row], g) ==
            if found.None? then Retry
            else if Carries(s.store.plans[s.row], g, found.value) && g.branch == found then Record(found.value)
            else Refuse
  {
    s.SoundRows();
    FinishVerdictMeans(s.store.plans[s.row], g, found);
  }

  lemma LiveNow(s: Session, i: nat, j: nat)
    requires s.Valid() && IsAttempt(s.store.plans[s.row], i, j) && At(s.store.plans[s.row], i, j).Live()
    ensures i == Done(s.store.plans[s.row]) && HasLast(s.store.plans[s.row]) && j == LastIndex(s.store.plans[s.row])
    ensures At(s.store.plans[s.row], i, j).state.Accepting? ==> !AnyRunning(s.store.plans[s.row])
  {
    s.SoundRows();
    LiveIsLast(s.store.plans[s.row], i, j);
    if At(s.store.plans[s.row], i, j).state.Accepting? {
      AcceptingIsLast(s.store.plans[s.row]);
    }
  }

  lemma NoneAcceptingAfter(p: PlanRecord, c: CommitId)
    requires PlanOk(p) && HasLast(p)
    ensures !AnyAccepting(Recorded(p, Done(p), LastIndex(p), c))
  {
    var q := Recorded(p, Done(p), LastIndex(p), c);
    forall k: nat, l: nat | IsAttempt(q, k, l) ensures !At(q, k, l).state.Accepting? {
      if At(q, k, l).state.Accepting? {
        assert At(p, k, l) == At(q, k, l);
        LiveIsLast(p, k, l);
      }
    }
  }

  /** Recording the live attempt leaves nothing accepting, and nothing begun. */
  lemma RecordedNow(s: Session, c: CommitId)
    requires s.Valid() && HasLast(s.store.plans[s.row]) && Last(s.store.plans[s.row]).state.Accepting?
    ensures
      var p := s.store.plans[s.row];
      var q := Recorded(p, Done(p), LastIndex(p), c);
      !AnyAccepting(q) && !HasLast(q) && Done(q) == Done(p) + 1
  {
    s.SoundRows();
    NoneAcceptingAfter(s.store.plans[s.row], c);
    NextHasNoAttempts(s.store.plans[s.row], c);
    RecordKeepsPlan(s.store.plans[s.row], c);
  }

  /** Records the commit that was found, or else accepts the candidate again. */
  method ActOnSearch(s: Session, found: Option<CommitId>, effort: Effort) returns (error: Option<string>)
    requires s.Valid() && s.store.plans[s.row].Active() && HasLast(s.store.plans[s.row]) && Last(s.store.plans[s.row]).state.Accepting?
    requires found.Some? ==>
               && found.value in s.repo.git.commits
               && KeyOf(s.store.plans[s.row], Done(s.store.plans[s.row]), LastIndex(s.store.plans[s.row])) in s.repo.git.commits[found.value].text
    modifies s.store, s.repo, s`trace
    ensures Continues(s)
    ensures error.Some? ==> Untouched(s)
    ensures error.None? ==>
              var p := old(s.store.plans[s.row]);
              s.store.plans[s.row].head.Some?
              && s.store.plans[s.row] == Recorded(p, Done(p), LastIndex(p), s.store.plans[s.row].head.value)
              && Carries(p, s.repo.git, s.store.plans[s.row].head.value)
    ensures found.Some? && Steady(old(s.repo.git), s.repo.git) ==>
              && (error.None? <==> Carries(old(s.store.plans[s.row]), old(s.repo.git), found.value) && old(s.repo.git.branch) == found)
              && (error.None? ==> s.store.plans[s.row].head == found)
    ensures found.Some? ==> OnlyOthers(old(s.repo.git), s.repo.git)
    ensures found.None? && Quiet(old(s.repo.git), s.repo.git) && old(AtRest(s.World())) ==>
              (error.None? <==> effort.Succeeds()) && (error.None? ==> AtRest(s.World()))
  {
    AcceptingNow(s);
    if found.Some? {
      error := RecordFound(s, found.value);
    } else if Last(s.store.plans[s.row]).candidate.None? {
      return Some("accepting with no verified candidate");
    } else {
      error := AcceptAgain(s, effort);
    }
  }

  /** What the search for the live attempt's key means: the verdict follows from it. */
  method SearchBranch(s: Session) returns (found: Option<CommitId>)
    requires s.Valid() && s.store.plans[s.row].Active() && HasLast(s.store.plans[s.row]) && Last(s.store.plans[s.row]).state.Accepting?
    modifies s.repo, s`trace
    ensures Continues(s) && Untouched(s)
    ensures var p := s.store.plans[s.row];
            found.Some? ==> found.value in s.repo.git.commits && KeyOf(p, Done(p), LastIndex(p)) in s.repo.git.commits[found.value].text
    ensures Steady(old(s.repo.git), s.repo.git) ==>
              s.repo.git.branch == old(s.repo.git.branch)
              && FinishVerdict(s.store.plans[s.row], old(s.repo.git)) ==
                 if found.None? then Retry
                 else if Carries(s.store.plans[s.row], s.repo.git, found.value) && s.repo.git.branch == found then Record(found.value)
                 else Refuse
    ensures Quiet(old(s.repo.git), s.repo.git) ==>
              && s.repo.git.moves == old(s.repo.git.moves)
              && found == (if old(AtRest(s.World())) then None else s.repo.git.branch)
              && (found.None? ==> old(AtRest(s.World())))
              && (found.Some? ==> Carries(s.store.plans[s.row], s.repo.git, found.value))
  {
    var p := s.store.plans[s.row];
    ghost var w, k := s.World(), |s.trace| - 1;
    AcceptingNow(s);
    BranchExists(w.git, w.nonce);
    found := FindForRecovery(s, Last(p).key.value);
    if Steady(w.git, s.repo.git) {
      VerdictNow(s, w.git, found);
    }
    if Quiet(w.git, s.repo.git) {
      QuietSearchNow(s, k, found);
    }
  }

  /** The search and what follows from it, for the live attempt. */
  method FinishLast(s: Session, effort: Effort) returns (error: Option<string>)
    requires s.Valid() && s.store.plans[s.row].Active() && HasLast(s.store.plans[s.row]) && Last(s.store.plans[s.row]).state.Accepting?
    modifies s.store, s.repo, s`trace
    ensures Continues(s)
    ensures error.Some? ==> Untouched(s)
    ensures error.None? ==>
              var p := old(s.store.plans[s.row]);
              s.store.plans[s.row].head.Some?
              && s.store.plans[s.row] == Recorded(p, Done(p), LastIndex(p), s.store.plans[s.row].head.value)
              && Carries(p, s.repo.git, s.store.plans[s.row].head.value)
    ensures Steady(old(s.repo.git), s.repo.git) ==>
              (FinishVerdict(old(s.store.plans[s.row]), old(s.repo.git)).Refuse? ==> error.Some?)
    ensures Steady(old(s.repo.git), s.repo.git) && FinishVerdict(old(s.store.plans[s.row]), old(s.repo.git)).Record? ==>
              error.None? && s.store.plans[s.row].head == Some(FinishVerdict(old(s.store.plans[s.row]), old(s.repo.git)).commit)
    ensures Quiet(old(s.repo.git), s.repo.git) ==> (error.None? <==> !old(AtRest(s.World())) || effort.Succeeds())
    ensures Quiet(old(s.repo.git), s.repo.git) && error.None? ==> AtRest(s.World())
  {
    ghost var w := s.World();
    var found := SearchBranch(s);
    ghost var h, n := s.repo.git, s.repo.nonce;
    error := ActOnSearch(s, found, effort);
    if error.Some? {
      OthersTransitive(w.git, h, s.repo.git);
    }
    Parts(w.git, h, s.repo.git);
    if found.Some? && Quiet(w.git, s.repo.git) {
      CalmMoves(h, s.repo.git, n, s.repo.nonce);
    }
  }

  /**
   * Finishes the acceptance an earlier process left in `accepting`. An error leaves every row and the ref alone;
   * success records exactly one step. When nobody moves the branch meanwhile, the outcome is FinishVerdict's; when
   * nobody but the harness ever has and every read works, only a Git or an export that fails can keep it from succeeding.
   */
  method FinishAcceptance(s: Session, i: nat, j: nat, effort: Effort) returns (error: Option<string>)
    requires s.Valid() && s.store.plans[s.row].Active()
    requires IsAttempt(s.store.plans[s.row], i, j) && At(s.store.plans[s.row], i, j).state.Accepting?
    modifies s.store, s.repo, s`trace
    ensures Continues(s)
    ensures error.Some? ==> Untouched(s)
    ensures error.None? ==>
              s.store.plans[s.row].head.Some?
              && s.store.plans[s.row] == Recorded(old(s.store.plans[s.row]), i, j, s.store.plans[s.row].head.value)
              && i == Done(old(s.store.plans[s.row]))
              && Carries(old(s.store.plans[s.row]), s.repo.git, s.store.plans[s.row].head.value)
    ensures Steady(old(s.repo.git), s.repo.git) ==>
              old(HasLast(s.store.plans[s.row])) && match FinishVerdict(old(s.store.plans[s.row]), old(s.repo.git)) {
                case Record(c) => error.None? && s.store.plans[s.row].head == Some(c)
                case Refuse => error.Some?
                case Retry => true
              }
    ensures Quiet(old(s.repo.git), s.repo.git) ==> (error.None? <==> !old(AtRest(s.World())) || effort.Succeeds())
    ensures Quiet(old(s.repo.git), s.repo.git) && error.None? ==> AtRest(s.World())
  {
    LiveNow(s, i, j);
    AcceptingNow(s);
    if At(s.store.plans[s.row], i, j).key.None? {
      return Some("accepting with no idempotency key");
    }
    error := FinishLast(s, effort);
  }

  /** What reconciliation has established once it is past step `i`. */
  ghost predicate NoneAcceptingBefore(p: PlanRecord, i: nat, j: nat) {
    forall k: nat, l: nat | IsAttempt(p, k, l) && (k < i || (k == i && l < j)) :: !At(p, k, l).state.Accepting?
  }

  lemma OneFurther(p: PlanRecord, i: nat, j: nat)
    requires IsAttempt(p, i, j) && NoneAcceptingBefore(p, i, j) && !At(p, i, j).state.Accepting?
    ensures NoneAcceptingBefore(p, i, j + 1)
  {
  }

  lemma StepFurther(p: PlanRecord, i: nat)
    requires i < |p.steps| && NoneAcceptingBefore(p, i, |p.steps[i].attempts|)
    ensures NoneAcceptingBefore(p, i + 1, 0)
  {
  }

  lemma NoneAnywhere(p: PlanRecord, i: nat, j: nat)
    ensures !AnyAccepting(p) ==> NoneAcceptingBefore(p, i, j)
    ensures NoneAcceptingBefore(p, |p.steps|, 0) ==> !AnyAccepting(p)
  {
  }

  /** What reconciliation does to the rows: nothing, or one step recorded with nothing begun after it. */
  ghost predicate FurtherOn(p: PlanRecord, q: PlanRecord) {
    && q.state == p.state && |q.steps| == |p.steps| && Done(q) >= Done(p)
    && (q == p || !HasLast(q))
    && (!AnyAccepting(p) ==> q == p)
  }

  /** Finishing the one accepting attempt leaves nothing accepting, and nothing begun. */
  method FinishOne(s: Session, i: nat, j: nat, effort: Effort) returns (error: Option<string>)
    requires s.Valid() && s.store.plans[s.row].Active()
    requires IsAttempt(s.store.plans[s.row], i, j) && At(s.store.plans[s.row], i, j).state.Accepting?
    modifies s.store, s.repo, s`trace
    ensures Continues(s) && FurtherOn(old(s.store.plans[s.row]), s.store.plans[s.row])
    ensures error.None? ==> !AnyAccepting(s.store.plans[s.row]) && Done(s.store.plans[s.row]) == old(Done(s.store.plans[s.row])) + 1
    ensures error.Some? ==> s.store.plans == old(s.store.plans) && !AnyRunning(s.store.plans[s.row])
    ensures Quiet(old(s.repo.git), s.repo.git) ==> (error.None? <==> !old(AtRest(s.World())) || effort.Succeeds())
  {
    LiveNow(s, i, j);
    forall c ensures var p := s.store.plans[s.row];
                     var q := Recorded(p, i, j, c);
                     !AnyAccepting(q) && !HasLast(q) && Done(q) == Done(p) + 1
    {
      RecordedNow(s, c);
    }
    error := FinishAcceptance(s, i, j, effort);
  }

  /** An acceptance was interrupted before the branch moved, so it has to be made again. */
  ghost predicate Interrupted(w: World) {
    AnyAccepting(w.plan) && AtRest(w)
  }

  /** One step's attempts, in ordinal order. */
  method ReconcileStep(s: Session, i: nat, effort: Effort) returns (error: Option<string>)
    requires s.Valid() && s.store.plans[s.row].Active() && i < |s.store.plans[s.row].steps|
    requires NoneAcceptingBefore(s.store.plans[s.row], i, 0)
    modifies s.store, s.repo, s`trace
    ensures Continues(s) && FurtherOn(old(s.store.plans[s.row]), s.store.plans[s.row])
    ensures error.None? ==> NoneAcceptingBefore(s.store.plans[s.row], i + 1, 0)
    ensures error.Some? ==> !AnyRunning(s.store.plans[s.row])
    ensures Quiet(old(s.repo.git), s.repo.git) && error.Some? ==> old(Interrupted(s.World())) && !effort.Succeeds()
    ensures error.None? ==> s.World() == old(s.World()) || !AnyAccepting(s.store.plans[s.row])
    ensures Quiet(old(s.repo.git), s.repo.git) && old(Interrupted(s.World())) && error.None? ==>
              effort.Succeeds() || s.World() == old(s.World())
  {
    var p := s.store.plans[s.row];
    for j := 0 to |p.steps[i].attempts|
      invariant s.Valid() && s.World() == old(s.World()) && s.trace == old(s.trace)
      invariant NoneAcceptingBefore(p, i, j)
    {
      if p.steps[i].attempts[j].state.Accepting? {
        LiveNow(s, i, j);
        // It is the step's last attempt, so the loop is over with it.
        error := FinishOne(s, i, j, effort);
        NoneAnywhere(s.store.plans[s.row], i + 1, 0);
        return;
      }
      OneFurther(p, i, j);
    }
    StepFurther(p, i);
    return None;
  }

  lemma RestNow(s: Session)
    requires s.Valid() && Undisturbed(s.repo.git) && !AnyAccepting(s.store.plans[s.row])
    ensures AtRest(s.World())
  {
    s.Sound();
    RestWhenUndisturbed(s.World());
  }

  /** The recorded head must be where the branch is; a branch that cannot be read counts as somewhere else. */
  method CheckHead(s: Session) returns (error: Option<string>)
    requires s.Valid() && !AnyAccepting(s.store.plans[s.row])
    modifies s.repo, s`trace
    ensures s.Valid() && old(s.trace) <= s.trace
    ensures s.World() == old(s.World()).(git := s.repo.git, nonce := s.repo.nonce) && OnlyOthers(old(s.repo.git), s.repo.git)
    ensures error.None? && s.store.plans[s.row].head.Some? ==> AtRest(s.World())
    ensures error.Some? ==> s.store.plans[s.row].head.Some? && (!AtRest(s.World()) || s.repo.git.misreads > old(s.repo.git.misreads))
    ensures Quiet(old(s.repo.git), s.repo.git) || Calm(s.repo.git) ==> error.None?
  {
    var tip := s.ReadTip();
    if s.store.plans[s.row].head.Some? && tip != s.store.plans[s.row].head {
      if Undisturbed(s.repo.git) {
        RestNow(s);
      }
      return Some("the branch is not at the recorded head");
    }
    return None;
  }

  /** Every step, in order. */
  method FinishSteps(s: Session, effort: Effort) returns (error: Option<string>)
    requires s.Valid() && s.store.plans[s.row].Active()
    modifies s.store, s.repo, s`trace
    ensures Continues(s) && FurtherOn(old(s.store.plans[s.row]), s.store.plans[s.row])
    ensures error.None? ==> !AnyAccepting(s.store.plans[s.row])
    ensures error.Some? ==> !AnyRunning(s.store.plans[s.row])
    ensures Quiet(old(s.repo.git), s.repo.git) ==> (error.None? <==> !old(Interrupted(s.World())) || effort.Succeeds())
  {
    ghost var w := s.World();
    var n := |s.store.plans[s.row].steps|;
    for i := 0 to n
      invariant Continues(s) && FurtherOn(old(s.store.plans[s.row]), s.store.plans[s.row])
      invariant NoneAcceptingBefore(s.store.plans[s.row], i, 0)
      invariant Quiet(w.git, s.repo.git) && Interrupted(w) ==> effort.Succeeds() || s.World() == w
      invariant s.World() == w || !AnyAccepting(s.store.plans[s.row])
    {
      ghost var g := s.repo.git;
      error := ReconcileStep(s, i, effort);
      Parts(w.git, g, s.repo.git);
      if error.Some? {
        return;
      }
    }
    NoneAnywhere(s.store.plans[s.row], 0, 0);
    return None;
  }

  /** Finishes whatever acceptance was interrupted, then requires the branch to be where the database says. */
  method Reconcile(s: Session, effort: Effort) returns (error: Option<string>)
    requires s.Valid() && s.store.plans[s.row].Active()
    modifies s.store, s.repo, s`trace
    ensures Continues(s) && FurtherOn(old(s.store.plans[s.row]), s.store.plans[s.row])
    ensures error.None? ==> !AnyAccepting(s.store.plans[s.row])
    ensures error.None? && s.store.plans[s.row].head.Some? ==> AtRest(s.World())
    ensures error.Some? && Calm(s.repo.git) ==> !AnyRunning(s.store.plans[s.row])
    ensures Quiet(old(s.repo.git), s.repo.git) ==> (error.None? <==> !old(Interrupted(s.World())) || effort.Succeeds())
  {
    ghost var g := s.repo.git;
    error := FinishSteps(s, effort);
    if error.Some? {
      return;
    }
    ghost var h := s.repo.git;
    error := CheckHead(s);
    if Quiet(g, s.repo.git) {
      QuietParts(g, h, s.repo.git);
    }
  }
}
