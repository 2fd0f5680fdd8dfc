/** Retiring a plan and reporting the accepted work it leaves (cancel of src/run/production.ts). */
module Cancellation {
  import opened Wrappers
  import opened Records
  import opened Commits
  import opened Protocol
  import opened Sessions
  import opened Recovery
  import opened StateStores
  import opened Stores

  /** Whether some interrupted acceptance of the plan left this commit. */
  method ProvenBySome(p: PlanRecord, commit: Commit) returns (proven: bool)
    ensures proven <==> exists i: nat, j: nat | IsAttempt(p, i, j) :: Proves(p, commit, i, j)
  {
    for i := 0 to |p.steps|
      invariant forall k: nat, l: nat | IsAttempt(p, k, l) && k < i :: !Proves(p, commit, k, l)
    {
      var attempts := p.steps[i].attempts;
      for j := 0 to |attempts|
        invariant forall k: nat, l: nat | IsAttempt(p, k, l) && (k < i || (k == i && l < j)) :: !Proves(p, commit, k, l)
      {
        var a := attempts[j];
        assert a == At(p, i, j);
        if a.state.Accepting? && a.key.Some? && a.parent == p.Tip() && a.key.value in commit.keys && p.steps[i].id in commit.steps {
          assert Proves(p, commit, i, j);
          return true;
        }
      }
    }
    return false;
  }

  /** `acceptedPlanHead`: a branch or a commit that cannot be read proves nothing. */
  method ReadAcceptedHead(s: Session) returns (head: Option<CommitId>)
    requires s.Valid()
    modifies s.repo, s`trace
    ensures s.Valid() && old(s.trace) <= s.trace
    ensures s.World() == old(s.World()).(git := s.repo.git, nonce := s.repo.nonce)
    ensures s.repo.git.branch.Some? ==> s.repo.git.branch.value in s.repo.git.commits
    ensures head == AcceptedPlanHead(s.store.plans[s.row], s.repo.git)
            || (head == s.store.plans[s.row].head && s.repo.git.misreads > old(s.repo.git.misreads))
  {
    var p := s.store.plans[s.row];
    var tip := s.ReadTip();
    BranchExists(s.repo.git, s.repo.nonce);
    if tip.None? || tip == p.head {
      return p.head;
    }
    var commit := s.ReadCommit(tip.value);
    if commit.None? || commit.value.parent != Some(p.Tip()) {
      return p.head;
    }
    var proven := ProvenBySome(p, commit.value);
    head := if proven then tip else p.head;
  }

  /** A plan that is over needs none of its snapshots. */
  lemma MayDrop(s: Session, x: Snapshot)
    requires s.Valid() && !s.store.plans[s.row].Active()
    ensures Enabled(s.World(), RemoveSnapshot(x))
  {
    s.Sound();
  }

  /** The plan's snapshot store is emptied, one artifact at a time. */
  method EmptyStore(s: Session)
    requires s.Valid() && !s.store.plans[s.row].Active()
    modifies s.snapshots, s`trace
    ensures s.Valid() && old(s.trace) <= s.trace
    ensures s.World() == old(s.World()).(snaps := {}) && s.snapshots.held == {}
  {
    ghost var w := s.World();
    var left := s.snapshots.held;
    while left != {}
      invariant s.Valid() && old(s.trace) <= s.trace
      invariant s.World() == w.(snaps := s.snapshots.held)
      invariant s.snapshots.held == left
      decreases left
    {
      var x :| x in left;
      left := left - {x};
      MayDrop(s, x);
      s.DropSnapshot(x);
    }
  }

  /** Cancelled, unless it was completed or cancelled before. */
  function Retired(p: PlanRecord): PlanRecord {
    p.(state := if p.Active() then PlanState.Cancelled else p.state)
  }

  /** `cancel`, of one plan: retire it unless it is over already, empty its snapshot store, and report its accepted head. */
  method Retire(s: Session) returns (head: Option<CommitId>)
    requires s.Valid()
    modifies s.store, s.repo, s.snapshots, s`trace
    ensures s.Valid() && old(s.trace) <= s.trace
    ensures s.snapshots.held == {}
    ensures s.store.plans == old(s.store.plans)[s.row := Retired(old(s.store.plans[s.row]))]
    ensures s.reports.Contents() == old(s.reports.Contents())
    ensures s.repo.git.branch.Some? ==> s.repo.git.branch.value in s.repo.git.commits
    ensures head == AcceptedPlanHead(s.store.plans[s.row], s.repo.git)
            || (head == s.store.plans[s.row].head && s.repo.git.misreads > old(s.repo.git.misreads))
  {
    if s.store.plans[s.row].Active() {
      s.Retire();
    }
    EmptyStore(s);
    head := ReadAcceptedHead(s);
  }

  /** Access to the plan registered from the manifest, if there is one. */
  method Find(store: StateStore, repo: Repository, snapshots: ArtifactStore, reports: ReportDirectory, repoPath: string, manifest: string)
    returns (found: Option<Session>)
    requires store.Valid() && reports.Valid()
    requires forall i: nat | i < |store.plans| :: From(store.plans[i], repoPath, manifest) ==> SoundRow(store, repo, snapshots, reports, i)
    ensures found.None? ==> forall i | 0 <= i < |store.plans| :: !From(store.plans[i], repoPath, manifest)
    ensures found.Some? ==>
              var s := found.value;
              && fresh(s) && s.store == store && s.repo == repo && s.snapshots == snapshots && s.reports == reports
              && s.Valid() && s.trace == [s.World()] && From(store.plans[s.row], repoPath, manifest)
  {
    var row := store.PlanFor(repoPath, manifest);
    if row.None? {
      return None;
    }
    assert SoundRow(store, repo, snapshots, reports, row.value);
    var s := new Session(store, repo, snapshots, reports, row.value, []);
    return Some(s);
  }

  /** The retirement of a plan by a process that has written nothing yet, told by its trace. */
  method RetireSession(s: Session) returns (head: Option<CommitId>, ghost trace: seq<World>)
    requires s.Valid() && s.trace == [s.World()]
    modifies s.store, s.repo, s.snapshots, s`trace
    ensures s.store.Valid() && s.reports.Valid()
    ensures s.store.plans == old(s.store.plans)[s.row := Retired(old(s.store.plans[s.row]))] && s.snapshots.held == {}
    ensures IsRun(trace) && trace[0] == old(s.World()) && Shows(trace[|trace| - 1], s.store, s.repo, s.snapshots, s.reports, s.row)
    ensures s.repo.git.branch.Some? ==> s.repo.git.branch.value in s.repo.git.commits
    ensures head == AcceptedPlanHead(s.store.plans[s.row], s.repo.git)
            || (head == s.store.plans[s.row].head && s.repo.git.misreads > old(s.repo.git.misreads))
  {
    ghost var w := s.World();
    head := Retire(s);
    trace := s.trace;
    assert trace[0] == w;
  }

  /**
   * The `cancel` command: the plan registered from the manifest is retired, or there is none. Only a plan that is
   * its repository's owner can be live, so retiring it gives the repository up. The writes made form a run of the
   * protocol, wherever they are cut off.
   */
  method Cancel(store: StateStore, repo: Repository, snapshots: ArtifactStore, reports: ReportDirectory,
                repoPath: string, manifest: string)
    returns (r: Result<Option<CommitId>, string>, row: nat, ghost trace: seq<World>)
    requires store.Valid() && reports.Valid()
    requires forall i: nat | i < |store.plans| :: From(store.plans[i], repoPath, manifest) ==> SoundRow(store, repo, snapshots, reports, i)
    modifies store, repo, snapshots
    ensures store.Valid() && reports.Valid()
    ensures r.Err? ==> forall i | 0 <= i < |store.plans| :: !From(store.plans[i], repoPath, manifest)
    ensures r.Err? ==> store.plans == old(store.plans) && repo.git == old(repo.git) && snapshots.held == old(snapshots.held)
    ensures r.Ok? ==>
              && row < |old(store.plans)| && From(old(store.plans)[row], repoPath, manifest)
              && store.plans == old(store.plans)[row := Retired(old(store.plans)[row])] && snapshots.held == {}
              && IsRun(trace) && trace[0].plan == old(store.plans)[row] && Shows(trace[|trace| - 1], store, repo, snapshots, reports, row)
              && (repo.git.branch.Some? ==> repo.git.branch.value in repo.git.commits)
              && (r.value == AcceptedPlanHead(store.plans[row], repo.git)
                  || (r.value == store.plans[row].head && repo.git.misreads > old(repo.git.misreads)))
  {
    row, trace := 0, [];
    var found := Find(store, repo, snapshots, reports, repoPath, manifest);
    if found.None? {
      return Err("no plan from this manifest is registered against the repository"), row, trace;
    }
    var s := found.value;
    row := s.row;
    var head, run := RetireSession(s);
    return Ok(head), row, run;
  }
}
