/** Committing an accepted change set and advancing the plan branch to it (src/git/accept.ts). */
module Acceptance {
  import opened Wrappers
  import opened Records
  import opened Commits
  import opened Protocol
  import opened Preservation
  import opened Sessions

  lemma AcceptingAttempt(p: PlanRecord)
    requires PlanOk(p) && HasLast(p) && Last(p).state.Accepting?
    ensures Last(p).parent == p.Tip()
    ensures Last(p).candidate.Some? && Last(p).key == Some(KeyOf(p, Done(p), LastIndex(p)))
  {
    TipIsParent(p);
    assert AttemptOk(p, Done(p), LastIndex(p));
  }

  /** The attempt being accepted, as its caller names it. */
  predicate IsAccepting(p: PlanRecord, stepId: StepId, key: Key, parent: CommitId) {
    && p.Active() && HasLast(p) && Last(p).state.Accepting?
    && stepId == p.steps[Done(p)].id && key == KeyOf(p, Done(p), LastIndex(p)) && parent == Last(p).parent
  }

  lemma HarnessLeavesABranch(g: Git, nonce: nat)
    requires GitOk(g, nonce) && Undisturbed(g) && g.moves != []
    ensures g.branch.Some?
  {
    assert g.moves[|g.moves| - 1].ByHarness?;
  }

  lemma RestsWithoutBranch(w: World)
    requires Inv(w) && Undisturbed(w.git) && w.git.branch.None?
    ensures AtRest(w)
  {
    if w.git.moves != [] {
      HarnessLeavesABranch(w.git, w.nonce);
    }
  }

  lemma MadeCarries(p: PlanRecord, g: Git, c: CommitId)
    requires HasLast(p) && c in g.commits && g.commits[c] == MadeFor(p, Done(p), LastIndex(p))
    ensures Carries(p, g, c)
  {
  }

  /** An unrecorded tip is all that recovery looks for. */
  lemma TipCarries(w: World)
    requires Inv(w) && Undisturbed(w.git) && |w.git.moves| == Done(w.plan) + 1
    ensures HasLast(w.plan) && !AtRest(w) && w.git.branch.Some? && Carries(w.plan, w.git, w.git.branch.value)
  {
    UnrecordedTip(w);
    MadeCarries(w.plan, w.git, w.git.branch.value);
  }

  /** Undisturbed, the key is on the branch exactly when the tip is this acceptance, not recorded yet. */
  lemma UndisturbedFind(w: World)
    requires Inv(w) && Undisturbed(w.git) && HasLast(w.plan) && Last(w.plan).state.Accepting? && w.git.branch.Some?
    ensures w.git.branch.value in w.git.commits
    ensures FindByKey(w.git.commits, w.git.branch.value, KeyOf(w.plan, Done(w.plan), LastIndex(w.plan)))
            == if AtRest(w) then None else w.git.branch
    ensures !AtRest(w) ==> Carries(w.plan, w.git, w.git.branch.value)
  {
    BranchExists(w.git, w.nonce);
    var found := FindByKey(w.git.commits, w.git.branch.value, KeyOf(w.plan, Done(w.plan), LastIndex(w.plan)));
    if |w.git.moves| == Done(w.plan) + 1 {
      TipCarries(w);
      TipIsFound(w.git.commits, w.git.branch.value, KeyOf(w.plan, Done(w.plan), LastIndex(w.plan)));
    } else {
      TipIsParent(w.plan);
      if found.Some? {
        HistoryHasNoKey(w, Done(w.plan), found.value);
      }
    }
  }

  /** The same, also when there is no branch. */
  lemma UndisturbedLookup(w: World, key: Key)
    requires Inv(w) && Undisturbed(w.git) && HasLast(w.plan) && Last(w.plan).state.Accepting?
    requires key == KeyOf(w.plan, Done(w.plan), LastIndex(w.plan))
    ensures w.git.branch.Some? ==> w.git.branch.value in w.git.commits
    ensures FoundOnBranch(w.git, key) == if AtRest(w) then None else w.git.branch
    ensures FoundOnBranch(w.git, key).None? ==> AtRest(w)
    ensures FoundOnBranch(w.git, key).Some? ==> Carries(w.plan, w.git, FoundOnBranch(w.git, key).value)
  {
    if w.git.branch.Some? {
      UndisturbedFind(w);
    } else {
      RestsWithoutBranch(w);
    }
  }

  lemma FoundWasOnBranch(g: Git, nonce: nat, key: Key)
    requires GitOk(g, nonce) && (g.branch.Some? ==> g.branch.value in g.commits) && FoundOnBranch(g, key).Some?
    ensures FoundOnBranch(g, key).value in g.commits && key in g.commits[FoundOnBranch(g, key).value].text
    ensures WasOnBranch(g, FoundOnBranch(g, key).value)
  {
    ReachedWasOnBranch(g, nonce, FoundOnBranch(g, key).value);
  }

  // ---------------------------------------------------------------- the same facts, of a session

  lemma AcceptingNow(s: Session)
    requires s.Valid() && HasLast(s.store.plans[s.row]) && Last(s.store.plans[s.row]).state.Accepting?
    ensures
      var p := s.store.plans[s.row];
      && Last(p).parent == p.Tip()
      && Last(p).candidate.Some? && Last(p).key == Some(KeyOf(p, Done(p), LastIndex(p)))
      && (p.state.Cancelled? || Last(p).candidate.value in s.snapshots.held)
  {
    s.Sound();
    AcceptingAttempt(s.store.plans[s.row]);
  }

  lemma LookupNow(s: Session, key: Key)
    requires s.Valid() && Undisturbed(s.repo.git) && HasLast(s.store.plans[s.row]) && Last(s.store.plans[s.row]).state.Accepting?
    requires key == KeyOf(s.store.plans[s.row], Done(s.store.plans[s.row]), LastIndex(s.store.plans[s.row]))
    ensures s.repo.git.branch.Some? ==> s.repo.git.branch.value in s.repo.git.commits
    ensures FoundOnBranch(s.repo.git, key) == if AtRest(s.World()) then None else s.repo.git.branch
    ensures FoundOnBranch(s.repo.git, key).Some? ==> Carries(s.store.plans[s.row], s.repo.git, FoundOnBranch(s.repo.git, key).value)
  {
    s.Sound();
    UndisturbedLookup(s.World(), key);
  }

  lemma RestsNow(s: Session)
    requires s.Valid() && Undisturbed(s.repo.git) && s.repo.git.branch.None?
    ensures AtRest(s.World())
  {
    s.Sound();
    RestsWithoutBranch(s.World());
  }

  /** A failing read changes nothing the branch has held. */
  lemma SameHistory(g: Git, h: Git, c: CommitId)
    requires GraphOk(g.commits) && h == g.(misreads := h.misreads) && WasOnBranch(g, c)
    ensures GraphOk(h.commits) && WasOnBranch(h, c)
  {
    var k: nat :| Held(g, k, c);
    assert Held(h, k, c);
  }

  /** The commit found by key must carry the step and stand on the parent. */
  method CheckCommit(s: Session, c: CommitId, stepId: StepId, parent: CommitId) returns (error: Option<string>)
    requires s.Valid() && c in s.repo.git.commits
    modifies s.repo`git, s`trace
    ensures s.Valid() && old(s.trace) <= s.trace
    ensures s.World() == old(s.World()).(git := s.repo.git)
    ensures s.repo.git == old(s.repo.git).(misreads := s.repo.git.misreads) && old(s.repo.git.misreads) <= s.repo.git.misreads
    ensures error.None? ==> stepId in s.repo.git.commits[c].steps && s.repo.git.commits[c].parent == Some(parent)
    ensures error.Some? ==> stepId !in s.repo.git.commits[c].steps || s.repo.git.commits[c].parent != Some(parent)
                            || s.repo.git.misreads > old(s.repo.git.misreads)
  {
    var commit := s.ReadCommit(c);
    if commit.None? || stepId !in commit.value.steps {
      return Some("the commit carries this idempotency key but not the step");
    }
    if commit.value.parent != Some(parent) {
      return Some("the commit carries this idempotency key but another parent");
    }
    return None;
  }

  /** What `FindAccepted` makes of a commit the search found. */
  method CheckFound(s: Session, c: CommitId, stepId: StepId, key: Key, parent: CommitId) returns (r: Result<Option<CommitId>, string>)
    requires s.Valid() && IsAccepting(s.store.plans[s.row], stepId, key, parent)
    requires s.repo.git.branch.Some? ==> s.repo.git.branch.value in s.repo.git.commits
    requires FoundOnBranch(s.repo.git, key) == Some(c)
    modifies s.repo, s`trace
    ensures s.Valid() && old(s.trace) <= s.trace
    ensures s.World() == old(s.World()).(git := s.repo.git)
    ensures s.repo.git == old(s.repo.git).(misreads := s.repo.git.misreads) && old(s.repo.git.misreads) <= s.repo.git.misreads
    ensures r.Ok? ==> r.value == Some(c) && Carries(s.store.plans[s.row], s.repo.git, c) && WasOnBranch(s.repo.git, c)
    ensures Quiet(old(s.repo.git), s.repo.git) ==> r.Ok? && Some(c) == s.repo.git.branch && !AtRest(s.World())
  {
    ghost var g := s.repo.git;
    FoundWasOnBranch(g, s.repo.nonce, key);
    if Undisturbed(g) {
      LookupNow(s, key);
    }
    var error := CheckCommit(s, c, stepId, parent);
    if error.Some? {
      return Err(error.value);
    }
    SameHistory(g, s.repo.git, c);
    return Ok(Some(c));
  }

  /** The commit the branch already carries under the key, checked against the step and the parent. */
  method FindAccepted(s: Session, stepId: StepId, key: Key, parent: CommitId) returns (r: Result<Option<CommitId>, string>)
    requires s.Valid() && IsAccepting(s.store.plans[s.row], stepId, key, parent)
    modifies s.repo, s`trace
    ensures s.Valid() && old(s.trace) <= s.trace
    ensures s.World() == old(s.World()).(git := s.repo.git, nonce := s.repo.nonce)
    ensures OnlyOthers(old(s.repo.git), s.repo.git)
    ensures r.Ok? && r.value.Some? ==>
              Carries(s.store.plans[s.row], s.repo.git, r.value.value) && WasOnBranch(s.repo.git, r.value.value)
    ensures Quiet(old(s.repo.git), s.repo.git) ==> r == Ok(if old(AtRest(s.World())) then None else s.repo.git.branch)
  {
    var existing := s.Search(key);
    if existing.None? {
      if Quiet(old(s.repo.git), s.repo.git) {
        LookupNow(s, key);
      }
      return Ok(None);
    }
    r := CheckFound(s, existing.value, stepId, key, parent);
  }

  /** The commit object, made while the branch stays where it is; others may move it before the harness does. */
  method CommitDetached(s: Session, stepId: StepId, key: Key, parent: CommitId) returns (commit: CommitId)
    requires s.Valid() && IsAccepting(s.store.plans[s.row], stepId, key, parent)
    modifies s.repo, s`trace
    ensures s.Valid() && old(s.trace) <= s.trace
    ensures s.World() == old(s.World()).(git := s.repo.git, nonce := s.repo.nonce)
    ensures OnlyOthers(old(s.repo.git), s.repo.git)
    ensures var p := s.store.plans[s.row];
            commit in s.repo.git.commits && s.repo.git.commits[commit] == MadeFor(p, Done(p), LastIndex(p))
    ensures Undisturbed(s.repo.git) ==> s.repo.git.moves == old(s.repo.git.moves) && s.repo.git.branch == old(s.repo.git.branch)
  {
    commit := s.CommitCandidate();
    ghost var g := s.repo.git;
    assert OnlyOthers(old(s.repo.git), g);
    s.Interference();
    OthersTransitive(old(s.repo.git), g, s.repo.git);
  }

  /** Commits the candidate and moves the branch from the recorded head to the commit, or moves nothing. */
  method CommitAndAdvance(s: Session, stepId: StepId, key: Key, parent: CommitId, branchExists: bool, gitWorks: bool)
    returns (r: Result<CommitId, string>)
    requires s.Valid() && IsAccepting(s.store.plans[s.row], stepId, key, parent)
    requires branchExists == s.store.plans[s.row].head.Some?
    modifies s.repo, s`trace
    ensures s.Valid() && old(s.trace) <= s.trace
    ensures s.World() == old(s.World()).(git := s.repo.git, nonce := s.repo.nonce)
    ensures Grown(old(s.repo.git), s.repo.git)
    ensures r.Ok? ==> Carries(s.store.plans[s.row], s.repo.git, r.value) && WasOnBranch(s.repo.git, r.value)
    ensures r.Ok? ==> s.repo.git.branch == Some(r.value)
    ensures r.Err? ==> OnlyOthers(old(s.repo.git), s.repo.git)
    ensures Undisturbed(s.repo.git) && old(AtRest(s.World())) ==> (r.Ok? <==> gitWorks)
    ensures Undisturbed(s.repo.git) && r.Ok? ==> s.repo.git.moves == old(s.repo.git.moves) + [ByHarness(r.value)]
  {
    AcceptingNow(s);
    // The worktree, the index or the commit itself can fail.
    if !gitWorks {
      return Err("git failed");
    }
    var commit := CommitDetached(s, stepId, key, parent);
    ghost var h := s.repo.git;
    var moved := s.Advance(commit, if branchExists then Some(parent) else None);
    if !moved {
      return Err("cannot advance the plan branch");
    }
    assert s.repo.git == Moved(h, ByHarness(commit));
    if Undisturbed(s.repo.git) {
      UndisturbedEarlier(h, s.repo.git);
    }
    ReachedWasOnBranch(s.repo.git, s.repo.nonce, commit);
    return Ok(commit);
  }

  /** The ref must be where the database says, and there must be something to commit. */
  method AdvanceFrom(s: Session, current: Option<CommitId>, stepId: StepId, key: Key, parent: CommitId, branchExists: bool,
                     changes: nat, gitWorks: bool)
    returns (r: Result<CommitId, string>)
    requires s.Valid() && IsAccepting(s.store.plans[s.row], stepId, key, parent)
    requires branchExists == s.store.plans[s.row].head.Some?
    modifies s.repo, s`trace
    ensures s.Valid() && old(s.trace) <= s.trace
    ensures s.World() == old(s.World()).(git := s.repo.git, nonce := s.repo.nonce)
    ensures Grown(old(s.repo.git), s.repo.git)
    ensures r.Ok? ==> Carries(s.store.plans[s.row], s.repo.git, r.value) && WasOnBranch(s.repo.git, r.value)
    ensures r.Ok? ==> s.repo.git.branch == Some(r.value) && changes > 0 && current == s.store.plans[s.row].head
    ensures r.Err? ==> OnlyOthers(old(s.repo.git), s.repo.git)
    ensures Undisturbed(s.repo.git) && old(AtRest(s.World())) && current == s.store.plans[s.row].head ==>
              (r.Ok? <==> changes > 0 && gitWorks)
    ensures Undisturbed(s.repo.git) && r.Ok? ==> s.repo.git.moves == old(s.repo.git.moves) + [ByHarness(r.value)]
  {
    AcceptingNow(s);
    if branchExists {
      if current.None? {
        return Err("the plan branch is missing");
      }
      if current.value != parent {
        return Err("the plan branch is not at the expected parent");
      }
    } else if current.Some? {
      return Err("the plan branch already exists");
    }
    if changes == 0 {
      return Err("refusing to commit an empty change set");
    }
    r := CommitAndAdvance(s, stepId, key, parent, branchExists, gitWorks);
  }

  /** The commit this attempt already has on the branch, if the branch exists at all. */
  method LookBeforeCommit(s: Session, stepId: StepId, key: Key, parent: CommitId)
    returns (current: Option<CommitId>, r: Result<Option<CommitId>, string>)
    requires s.Valid() && IsAccepting(s.store.plans[s.row], stepId, key, parent)
    modifies s.repo, s`trace
    ensures s.Valid() && old(s.trace) <= s.trace
    ensures s.World() == old(s.World()).(git := s.repo.git, nonce := s.repo.nonce)
    ensures OnlyOthers(old(s.repo.git), s.repo.git)
    ensures r.Ok? && r.value.Some? ==>
              Carries(s.store.plans[s.row], s.repo.git, r.value.value) && WasOnBranch(s.repo.git, r.value.value)
    ensures Quiet(old(s.repo.git), s.repo.git) ==>
              && s.repo.git.moves == old(s.repo.git.moves) && current == s.repo.git.branch == old(s.repo.git.branch)
              && r == Ok(if old(AtRest(s.World())) then None else current)
              && (current.None? ==> old(AtRest(s.World())))
  {
    current := s.ReadTip();
    ghost var g, n := s.repo.git, s.repo.nonce;
    if current.None? {
      if Quiet(old(s.repo.git), g) {
        RestsNow(s);
      }
      return current, Ok(None);
    }
    r := FindAccepted(s, stepId, key, parent);
    OthersTransitive(old(s.repo.git), g, s.repo.git);
    if Quiet(old(s.repo.git), s.repo.git) {
      CalmMoves(g, s.repo.git, n, s.repo.nonce);
    }
  }

  /**
   * Accepts `changes` changes for the attempt in `accepting`: returns the commit already on the branch under the
   * attempt's key, or commits and moves the branch from exactly the recorded head. On an error the harness has
   * moved nothing. Any Git command can be preceded by somebody else's, and any that reads can fail; when nobody else
   * ever moves the branch and every read works, an acceptance that is already there is found and not repeated, and a
   * new one moves the branch once.
   */
  method AcceptChanges(s: Session, stepId: StepId, key: Key, parent: CommitId, branchExists: bool, passed: bool, changes: nat,
                       gitWorks: bool)
    returns (r: Result<CommitId, string>)
    requires s.Valid() && IsAccepting(s.store.plans[s.row], stepId, key, parent)
    requires branchExists == s.store.plans[s.row].head.Some?
    modifies s.repo, s`trace
    ensures s.Valid() && old(s.trace) <= s.trace
    ensures s.World() == old(s.World()).(git := s.repo.git, nonce := s.repo.nonce)
    ensures Grown(old(s.repo.git), s.repo.git)
    ensures r.Ok? ==> passed && Carries(s.store.plans[s.row], s.repo.git, r.value) && WasOnBranch(s.repo.git, r.value)
    ensures r.Err? || changes == 0 ==> OnlyOthers(old(s.repo.git), s.repo.git)
    ensures Quiet(old(s.repo.git), s.repo.git) && passed ==>
              if old(AtRest(s.World())) then
                && (r.Ok? <==> changes > 0 && gitWorks)
                && (r.Ok? ==> s.repo.git.moves == old(s.repo.git.moves) + [ByHarness(r.value)])
              else
                r.Ok? && s.repo.git.moves == old(s.repo.git.moves) && old(s.repo.git.branch) == Some(r.value)
  {
    if !passed {
      return Err("verification did not pass");
    }
    var current, existing := LookBeforeCommit(s, stepId, key, parent);
    ghost var g := s.repo.git;
    if existing.Err? {
      return Err(existing.error);
    }
    if existing.value.Some? {
      return Ok(existing.value.value);
    }
    r := AdvanceFrom(s, current, stepId, key, parent, branchExists, changes, gitWorks);
    if r.Err? {
      OthersTransitive(old(s.repo.git), g, s.repo.git);
    }
    if Quiet(old(s.repo.git), s.repo.git) {
      QuietParts(old(s.repo.git), g, s.repo.git);
    }
  }
}
