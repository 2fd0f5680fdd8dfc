/**
 * One process's access to the durable stores. Every durable write goes through a method here that shows the
 * write is one the protocol allows, and adds the world it produced to the trace; a crash is any prefix of it.
 */
module Sessions {
  import opened Wrappers
  import opened Failure
  import opened Records
  import opened Selection
  import opened Commits
  import opened Protocol
  import opened Preservation
  import opened Routing
  import opened StateStores
  import opened Stores

  /** What foreign activity leaves alone: history only grows, and none of the new moves is the harness's. */
  ghost predicate OnlyOthers(g: Git, h: Git) {
    && Grown(g, h)
    && (forall k | |g.moves| <= k < |h.moves| :: h.moves[k].ByOther?)
  }

  lemma OthersTransitive(g: Git, h: Git, k: Git)
    requires OnlyOthers(g, h) && OnlyOthers(h, k)
    ensures OnlyOthers(g, k)
  {
    forall i | |g.moves| <= i < |k.moves| ensures k.moves[i].ByOther? {
      if i < |h.moves| {
        assert h.moves[i] == k.moves[i];
      }
    }
  }

  lemma OthersShow(g: Git, h: Git)
    requires OnlyOthers(g, h) && |h.moves| > |g.moves|
    ensures !Undisturbed(h)
  {
    assert h.moves[|g.moves|].ByOther?;
  }

  /** Had anybody else moved the branch, the history would show it. */
  lemma CalmMoves(g: Git, h: Git, before: nat, after: nat)
    requires GitOk(g, before) && GitOk(h, after) && OnlyOthers(g, h) && Undisturbed(h)
    ensures h.moves == g.moves && h.branch == g.branch && Undisturbed(g)
  {
    if |h.moves| > |g.moves| {
      OthersShow(g, h);
    }
  }

  lemma UndisturbedEarlier(g: Git, h: Git)
    requires Grown(g, h) && Undisturbed(h)
    ensures Undisturbed(g) && (Calm(h) ==> Calm(g))
  {
    forall k | 0 <= k < |g.moves| ensures g.moves[k].ByHarness? {
      assert g.moves[k] == h.moves[k];
    }
  }

  /** Nobody moved the branch since then, and every read has worked. */
  ghost predicate Steady(g: Git, h: Git) {
    h.moves == g.moves && h.misreads == g.misreads
  }

  /** Nobody else has ever moved the branch, and every read since then has worked. */
  ghost predicate Quiet(g: Git, h: Git) {
    Undisturbed(h) && h.misreads == g.misreads
  }

  lemma SteadyBranch(g: Git, h: Git, before: nat, after: nat)
    requires GitOk(g, before) && GitOk(h, after) && Steady(g, h)
    ensures h.branch == g.branch
  {
  }

  lemma QuietParts(g: Git, h: Git, k: Git)
    requires Grown(g, h) && Grown(h, k) && Quiet(g, k)
    ensures Quiet(g, h) && Quiet(h, k) && Grown(g, k)
  {
    UndisturbedEarlier(h, k);
  }

  /** What holds of a stretch of history holds of both its halves. */
  lemma Parts(g: Git, h: Git, k: Git)
    requires Grown(g, h) && Grown(h, k)
    ensures Quiet(g, k) ==> Quiet(g, h) && Quiet(h, k)
    ensures Steady(g, k) ==> Steady(g, h) && Steady(h, k)
  {
    if Quiet(g, k) {
      QuietParts(g, h, k);
    }
  }

  lemma NoMoveKept(g: Git, h: Git, nonce: nat, key: Key)
    requires GitOk(g, nonce) && OnlyOthers(g, h) && NoMove(g, key)
    ensures NoMove(h, key)
  {
    forall k | 0 <= k < |h.moves| && h.moves[k].ByHarness?
      ensures h.moves[k].tip in h.commits ==> key !in h.commits[h.moves[k].tip].keys
    {
      assert h.moves[k] == g.moves[k] && g.moves[k].Target().value in g.commits;
    }
  }

  lemma BranchExists(g: Git, nonce: nat)
    requires GitOk(g, nonce)
    ensures g.branch.Some? ==> g.branch.value in g.commits
  {
  }

  /** The newest commit on the branch that mentions the key. */
  function FoundOnBranch(g: Git, key: Key): Option<CommitId>
    requires GraphOk(g.commits) && (g.branch.Some? ==> g.branch.value in g.commits)
  {
    if g.branch.Some? then FindByKey(g.commits, g.branch.value, key) else None
  }

  /** What the branch reaches now, it has contained. */
  lemma ReachedWasOnBranch(g: Git, nonce: nat, c: CommitId)
    requires GitOk(g, nonce) && g.branch.Some? && g.branch.value in g.commits && Reaches(g.commits, g.branch.value, c)
    ensures WasOnBranch(g, c)
  {
    assert Held(g, |g.moves| - 1, c);
  }

  /** The commit is the one made for the attempt being accepted. */
  predicate Installs(p: PlanRecord, g: Git, c: CommitId) {
    p.Active() && HasLast(p) && Last(p).state.Accepting? && c in g.commits && g.commits[c] == MadeFor(p, Done(p), LastIndex(p))
  }

  lemma MoveAllowed(w: World, c: CommitId)
    requires AtRest(w) && Installs(w.plan, w.git, c)
    ensures Enabled(w, MoveRef(c)) && Apply(w, MoveRef(c)) == w.(git := Moved(w.git, ByHarness(c)))
  {
  }

  lemma RunGrows(ws: seq<World>, a: Action)
    requires IsRun(ws) && AllSound(ws) && Enabled(ws[|ws| - 1], a)
    ensures IsRun(ws + [Apply(ws[|ws| - 1], a)]) && AllSound(ws + [Apply(ws[|ws| - 1], a)])
    ensures GitOk(Apply(ws[|ws| - 1], a).git, Apply(ws[|ws| - 1], a).nonce)
  {
    assert SoundAt(ws, |ws| - 1);
    var w := ws[|ws| - 1];
    InvStep(w, a);
    var grown := ws + [Apply(w, a)];
    forall k: nat | 0 < k < |grown| ensures Follows(grown, k) {
      if k < |ws| {
        assert Follows(ws, k);
      }
    }
    forall k: nat | k < |grown| ensures SoundAt(grown, k) {
      if k < |ws| {
        assert SoundAt(ws, k);
      }
    }
  }

  lemma RouteGrows(ws: seq<World>, a: Action, complexities: seq<Complexity>)
    requires ws != [] && AllSound(ws) && Routed(ws, complexities)
    requires Enabled(ws[|ws| - 1], a) && ByOwnComplexity(ws[|ws| - 1].plan, a, complexities)
    ensures Routed(ws + [Apply(ws[|ws| - 1], a)], complexities)
  {
    assert SoundAt(ws, |ws| - 1);
    OnRouteStep(ws[|ws| - 1], a, complexities);
    var grown := ws + [Apply(ws[|ws| - 1], a)];
    forall k: nat | 0 < k < |grown| ensures RoutedAt(grown, k, complexities) {
      if k < |ws| {
        assert RoutedAt(ws, k, complexities);
      }
    }
  }

  datatype PhaseError = PhaseError(category: FailureCategory, message: string)

  /** What one executor run meets: how its phases go, what it would commit, and whether Git and its teardown work. */
  datatype Run = Run(saved: seq<Snapshot>, phaseError: Option<PhaseError>, candidate: Snapshot, changes: nat,
                     gitWorks: bool, clean: bool)
  {
    predicate Commits() {
      phaseError.None? && changes > 0 && gitWorks
    }

    predicate Succeeds() {
      Commits() && clean
    }
  }

  /** The world of one plan row. */
  ghost function WorldOf(store: StateStore, repo: Repository, snapshots: ArtifactStore, reports: ReportDirectory, row: nat): World
    requires row < |store.plans| && reports.Valid()
    reads store, repo, snapshots, reports
  {
    Protocol.World(store.plans[row], repo.git, snapshots.held, reports.Contents(), repo.nonce)
  }

  /** The row's world is good. */
  ghost predicate SoundRow(store: StateStore, repo: Repository, snapshots: ArtifactStore, reports: ReportDirectory, row: nat)
    requires row < |store.plans| && reports.Valid()
    reads store, repo, snapshots, reports
  {
    Inv(WorldOf(store, repo, snapshots, reports, row))
  }

  /** The stores read as the world says. */
  ghost predicate Shows(w: World, store: StateStore, repo: Repository, snapshots: ArtifactStore, reports: ReportDirectory, row: nat)
    requires row < |store.plans| && reports.Valid()
    reads store, repo, snapshots, reports
  {
    && w.plan == store.plans[row] && w.git == repo.git && w.snaps == snapshots.held
    && w.reports == reports.Contents() && w.nonce == repo.nonce
  }

  class Session {
    const store: StateStore
    const repo: Repository
    const snapshots: ArtifactStore
    const reports: ReportDirectory
    const row: nat
    /** The approved plan's complexities, step by step; a process that only cancels has none. */
    const complexities: seq<Complexity>
    ghost var trace: seq<World>
    /** The executor runs of this process so far. */
    ghost var ran: seq<Run>

    ghost function World(): World
      requires row < |store.plans| && reports.Valid()
      reads store, repo, snapshots, reports
    {
      Protocol.World(store.plans[row], repo.git, snapshots.held, reports.Contents(), repo.nonce)
    }

    ghost predicate Valid()
      reads this, store, repo, snapshots, reports
    {
      && store.Valid() && reports.Valid() && row < |store.plans|
      && trace != [] && trace[|trace| - 1] == World()
      && IsRun(trace) && AllSound(trace) && Routed(trace, complexities)
      && GitOk(repo.git, repo.nonce)
    }

    /** Whatever a run from a good world reaches is good. */
    lemma Sound()
      requires Valid()
      ensures Inv(World())
    {
      assert SoundAt(trace, |trace| - 1);
    }

    /** Since any earlier moment of this process, history has only grown. */
    lemma GrowsAlong(k: nat)
      requires Valid() && k < |trace|
      ensures Grown(trace[k].git, repo.git)
    {
      assert SoundAt(trace, 0);
      GitGrows(trace, k, |trace| - 1);
    }

    lemma SoundRows()
      requires Valid()
      ensures PlanOk(store.plans[row])
    {
      Sound();
    }

    /** Since any earlier moment of this process, every attempt it started has the profile that fits its step. */
    lemma RoutedSince(k: nat)
      requires Valid() && k < |trace|
      ensures OnRoute(trace[k].plan, store.plans[row], complexities)
    {
      RoutedAlong(trace, complexities, k, |trace| - 1);
    }

    constructor (store: StateStore, repo: Repository, snapshots: ArtifactStore, reports: ReportDirectory, row: nat,
                 complexities: seq<Complexity>)
      requires store.Valid() && reports.Valid() && row < |store.plans|
      requires Inv(WorldOf(store, repo, snapshots, reports, row))
      ensures this.store == store && this.repo == repo && this.snapshots == snapshots && this.reports == reports
      ensures this.row == row && this.complexities == complexities
      ensures Valid() && trace == [World()] && ran == []
      ensures World() == WorldOf(store, repo, snapshots, reports, row)
    {
      this.store, this.repo, this.snapshots, this.reports, this.row := store, repo, snapshots, reports, row;
      this.complexities := complexities;
      this.ran := [];
      this.trace := [WorldOf(store, repo, snapshots, reports, row)];
    }

    /** The world after the write just made is added to the trace. */
    ghost method Note(w: World, a: Action)
      requires store.Valid() && reports.Valid() && row < |store.plans|
      requires trace != [] && trace[|trace| - 1] == w && IsRun(trace) && AllSound(trace) && Routed(trace, complexities)
      requires Enabled(w, a) && World() == Apply(w, a) && ByOwnComplexity(w.plan, a, complexities)
      modifies this`trace
      ensures Valid() && trace == old(trace) + [World()]
    {
      RunGrows(trace, a);
      RouteGrows(trace, a, complexities);
      trace := trace + [World()];
    }

    ghost method NoteMove(w: World, c: CommitId)
      requires store.Valid() && reports.Valid() && row < |store.plans|
      requires trace != [] && trace[|trace| - 1] == w && IsRun(trace) && AllSound(trace) && Routed(trace, complexities)
      requires AtRest(w) && Installs(w.plan, w.git, c) && World() == w.(git := Moved(w.git, ByHarness(c)))
      modifies this`trace
      ensures Valid() && trace == old(trace) + [World()]
    {
      MoveAllowed(w, c);
      Note(w, MoveRef(c));
    }

    // ---------------------------------------------------------------- the database

    method MarkPlan(s: PlanState)
      requires Valid() && store.plans[row].Active()
      requires s.Failed? || (s.Running? && Enabled(World(), MarkRunning)) || (s.Completed? && Enabled(World(), MarkCompleted))
      modifies store, this`trace
      ensures Valid() && old(trace) <= trace
      ensures World() == old(World()).(plan := old(World()).plan.(state := s))
    {
      ghost var w := World();
      var ok := store.SetPlanState(row, s);
      Note(w, match s {
        case Failed => MarkFailed
        case Running => MarkRunning
        case _ => MarkCompleted
      });
    }

    /** Gives the repository up, as its owner. */
    method Retire()
      requires Valid() && store.plans[row].Active()
      modifies store, this`trace
      ensures Valid() && old(trace) <= trace
      ensures World() == old(World()).(plan := old(World()).plan.(state := PlanState.Cancelled))
      ensures store.plans == old(store.plans)[row := store.plans[row]]
    {
      ghost var w := World();
      assert Owns(store.plans[row], store.plans[row].repo);
      var retired := store.CancelPlan(store.plans[row].repo, store.plans[row].manifest);
      assert retired == Ok(row);
      Note(w, MarkCancelled);
    }

    /** Starts the attempt selection chose by the step's own complexity. */
    method Start(complexity: Complexity, choice: Choice) returns (id: AttemptId)
      requires Valid() && Enabled(World(), StartAttempt(complexity)) && Chosen(store.plans[row], complexity) == Some(choice)
      requires Done(store.plans[row]) < |complexities| && complexity == complexities[Done(store.plans[row])]
      modifies store, repo`nonce, this`trace
      ensures Valid() && old(trace) <= trace && World() == Apply(old(World()), StartAttempt(complexity))
    {
      ghost var w := World();
      id := repo.TakeNonce();
      store.StartAttempt(row, Done(store.plans[row]), id, choice.profile, choice.retryOf, choice.parent);
      Note(w, StartAttempt(complexity));
    }

    method CountRecoveryRun()
      requires Valid() && Enabled(World(), RecordRecoveryRun)
      modifies store, this`trace
      ensures Valid() && old(trace) <= trace && World() == Apply(old(World()), RecordRecoveryRun)
    {
      ghost var w := World();
      store.RecordRecoveryRun(row, Done(store.plans[row]), LastIndex(store.plans[row]));
      Note(w, RecordRecoveryRun);
    }

    method SaveCandidate(s: Snapshot, key: Key)
      requires Valid() && Enabled(World(), SetCandidate(s))
      requires key == KeyOf(store.plans[row], Done(store.plans[row]), LastIndex(store.plans[row]))
      modifies store, this`trace
      ensures Valid() && old(trace) <= trace && World() == Apply(old(World()), SetCandidate(s))
    {
      ghost var w := World();
      store.SetAttemptCandidate(row, Done(store.plans[row]), LastIndex(store.plans[row]), s, key);
      Note(w, SetCandidate(s));
    }

    method BeginAcceptance()
      requires Valid() && Enabled(World(), SetAccepting)
      modifies store, this`trace
      ensures Valid() && old(trace) <= trace && World() == Apply(old(World()), SetAccepting)
    {
      ghost var w := World();
      store.SetAttemptState(row, Done(store.plans[row]), LastIndex(store.plans[row]), AttemptState.Accepting);
      Note(w, SetAccepting);
    }

    method Fail(failure: string)
      requires Valid() && Enabled(World(), FailAttempt(failure))
      modifies store, this`trace
      ensures Valid() && old(trace) <= trace && World() == Apply(old(World()), FailAttempt(failure))
    {
      ghost var w := World();
      store.FailPlan(row, Done(store.plans[row]), LastIndex(store.plans[row]), failure);
      Note(w, FailAttempt(failure));
    }

    method Complete(c: CommitId)
      requires Valid() && Enabled(World(), CompleteAcceptance(c))
      modifies store, this`trace
      ensures Valid() && old(trace) <= trace && World() == Apply(old(World()), CompleteAcceptance(c))
    {
      ghost var w := World();
      store.CompleteAcceptance(row, Done(store.plans[row]), LastIndex(store.plans[row]), c);
      Note(w, CompleteAcceptance(c));
    }

    // ---------------------------------------------------------------- Git

    /** Somebody else adds a commit object, if it is one. */
    method OtherCommits(c: Commit)
      requires Valid()
      modifies repo, this`trace
      ensures Valid() && old(trace) <= trace
      ensures World() == old(World()).(git := repo.git, nonce := repo.nonce)
      ensures OnlyOthers(old(repo.git), repo.git) && repo.git.misreads == old(repo.git.misreads)
    {
      ghost var w := World();
      if MayAppear(repo.git, repo.nonce, c) {
        CommitAdded(repo.git, repo.nonce, c);
        var id := repo.AddCommit(c);
        Note(w, OtherCommit(c));
      }
    }

    /** Somebody else moves the branch to a commit, or deletes it. */
    method OtherMoves(to: Option<CommitId>)
      requires Valid()
      modifies repo, this`trace
      ensures Valid() && old(trace) <= trace
      ensures World() == old(World()).(git := repo.git, nonce := repo.nonce)
      ensures OnlyOthers(old(repo.git), repo.git) && repo.git.misreads == old(repo.git.misreads)
    {
      ghost var w := World();
      if to.Some? ==> to.value in repo.git.commits {
        BranchMoved(repo.git, repo.nonce, ByOther(to));
        repo.MoveByOther(to);
        Note(w, OtherMove(to));
      }
    }

    /** One thing somebody else does to the repository, or nothing. */
    method OtherStep()
      requires Valid()
      modifies repo, this`trace
      ensures Valid() && old(trace) <= trace
      ensures World() == old(World()).(git := repo.git, nonce := repo.nonce)
      ensures OnlyOthers(old(repo.git), repo.git) && repo.git.misreads == old(repo.git.misreads)
    {
      if * {
        var c: Commit := *;
        OtherCommits(c);
      } else {
        var to: Option<CommitId> := *;
        OtherMoves(to);
      }
    }

    /** Anybody else may commit, or move, create or delete the plan branch, any number of times. */
    method Interference()
      requires Valid()
      modifies repo, this`trace
      ensures Valid() && old(trace) <= trace
      ensures World() == old(World()).(git := repo.git, nonce := repo.nonce)
      ensures OnlyOthers(old(repo.git), repo.git) && repo.git.misreads == old(repo.git.misreads)
      ensures Undisturbed(repo.git) ==>
                Undisturbed(old(repo.git)) && repo.git.moves == old(repo.git.moves) && repo.git.branch == old(repo.git.branch)
    {
      var times: nat := *;
      while times > 0
        invariant Valid() && old(trace) <= trace
        invariant World() == old(World()).(git := repo.git, nonce := repo.nonce)
        invariant OnlyOthers(old(repo.git), repo.git) && repo.git.misreads == old(repo.git.misreads)
      {
        ghost var g, h := old(repo.git), repo.git;
        OtherStep();
        OthersTransitive(g, h, repo.git);
        times := times - 1;
      }
      if Undisturbed(repo.git) {
        CalmMoves(old(repo.git), repo.git, old(repo.nonce), repo.nonce);
      }
    }

    /** A command that only reads may fail. */
    method MayFailToRead() returns (failed: bool)
      requires Valid()
      modifies repo`git, this`trace
      ensures Valid() && old(trace) <= trace
      ensures World() == old(World()).(git := repo.git)
      ensures repo.git == if failed then old(repo.git).(misreads := old(repo.git.misreads) + 1) else old(repo.git)
    {
      failed := *;
      if failed {
        ghost var w := World();
        repo.Misread();
        Note(w, FailRead);
      }
    }

    /** Where the branch is; `None` also when it cannot be read. Anybody else may have moved it before. */
    method ReadTip() returns (tip: Option<CommitId>)
      requires Valid()
      modifies repo, this`trace
      ensures Valid() && old(trace) <= trace
      ensures World() == old(World()).(git := repo.git, nonce := repo.nonce)
      ensures OnlyOthers(old(repo.git), repo.git)
      ensures tip == repo.git.branch || (tip.None? && repo.git.misreads > old(repo.git.misreads))
      ensures Undisturbed(repo.git) ==>
                Undisturbed(old(repo.git)) && repo.git.moves == old(repo.git.moves) && repo.git.branch == old(repo.git.branch)
    {
      Interference();
      var failed := MayFailToRead();
      tip := if failed then None else repo.git.branch;
    }

    /** The newest commit on the branch mentioning the key; `None` also when the search fails. */
    method Search(key: Key) returns (found: Option<CommitId>)
      requires Valid()
      modifies repo, this`trace
      ensures Valid() && old(trace) <= trace
      ensures World() == old(World()).(git := repo.git, nonce := repo.nonce)
      ensures OnlyOthers(old(repo.git), repo.git)
      ensures repo.git.branch.Some? ==> repo.git.branch.value in repo.git.commits
      ensures found == FoundOnBranch(repo.git, key) || (found.None? && repo.git.misreads > old(repo.git.misreads))
      ensures Undisturbed(repo.git) ==>
                Undisturbed(old(repo.git)) && repo.git.moves == old(repo.git.moves) && repo.git.branch == old(repo.git.branch)
    {
      Interference();
      BranchExists(repo.git, repo.nonce);
      found := FoundOnBranch(repo.git, key);
      var failed := MayFailToRead();
      if failed {
        found := None;
      }
    }

    /** A commit's trailers and parents; `None` when they cannot be read. */
    method ReadCommit(c: CommitId) returns (commit: Option<Commit>)
      requires Valid() && c in repo.git.commits
      modifies repo`git, this`trace
      ensures Valid() && old(trace) <= trace
      ensures World() == old(World()).(git := repo.git)
      ensures repo.git == old(repo.git).(misreads := repo.git.misreads) && old(repo.git.misreads) <= repo.git.misreads
      ensures commit == Some(repo.git.commits[c]) || (commit.None? && repo.git.misreads > old(repo.git.misreads))
    {
      var failed := MayFailToRead();
      commit := if failed then None else Some(repo.git.commits[c]);
    }

    method CommitCandidate() returns (c: CommitId)
      requires Valid() && Enabled(World(), CreateCommit)
      modifies repo, this`trace
      ensures Valid() && old(trace) <= trace && World() == Apply(old(World()), CreateCommit) && c == old(repo.nonce)
    {
      ghost var w := World();
      var p := store.plans[row];
      c := repo.AddCommit(MadeFor(p, Done(p), LastIndex(p)));
      Note(w, CreateCommit);
    }

    /** The compare-and-swap; the caller's expected value is the recorded head. */
    method Advance(c: CommitId, expected: Option<CommitId>) returns (moved: bool)
      requires Valid() && expected == store.plans[row].head
      requires Installs(store.plans[row], repo.git, c)
      modifies repo, this`trace
      ensures Valid() && old(trace) <= trace
      ensures moved <==> old(repo.git.branch) == expected
      ensures World() == old(World()).(git := if moved then Moved(old(repo.git), ByHarness(c)) else old(repo.git))
    {
      ghost var w := World();
      moved := repo.UpdateRef(c, expected);
      if moved {
        NoteMove(w, c);
      }
    }

    // ---------------------------------------------------------------- snapshots and reports

    method SaveSnapshot(s: Snapshot)
      requires Valid() && store.plans[row].Active()
      modifies snapshots, this`trace
      ensures Valid() && old(trace) <= trace && World() == old(World()).(snaps := old(snapshots.held) + {s})
    {
      ghost var w := World();
      snapshots.Put(s);
      Note(w, PutSnapshot(s));
    }

    method DropSnapshot(s: Snapshot)
      requires Valid() && Enabled(World(), RemoveSnapshot(s))
      modifies snapshots, this`trace
      ensures Valid() && old(trace) <= trace && World() == old(World()).(snaps := old(snapshots.held) - {s})
    {
      ghost var w := World();
      snapshots.Remove(s);
      Note(w, RemoveSnapshot(s));
    }

    method Publish(r: Report)
      requires Valid() && Enabled(World(), WriteReport(r))
      modifies reports, this`trace
      ensures Valid() && old(trace) <= trace && World() == old(World()).(reports := old(reports.Contents()) + [r])
    {
      ghost var w := World();
      reports.Write(r);
      Note(w, WriteReport(r));
    }
  }
}
