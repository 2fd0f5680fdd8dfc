/**
 * The durable world of one plan and every write that can change it.
 *
 * A crash loses only a process's variables, so it needs no action of its own: a run is any sequence of
 * writes, and an invocation that dies leaves a prefix of the writes it would have made.
 */
module Protocol {
  import opened Wrappers
  import opened Records
  import opened Selection
  import opened Commits

  /** A report is the plan's rows as they read when it was composed, plus the final verdict if there was one. */
  datatype Report = Report(rows: PlanRecord, verified: Option<bool>, failure: Option<string>)

  /** `nonce` is above every attempt and commit id issued so far, by anybody. */
  datatype World = World(plan: PlanRecord, git: Git, snaps: set<Snapshot>, reports: seq<Report>, nonce: nat)

  ghost predicate Lists(r: Report, id: AttemptId) {
    exists i: nat, j: nat | IsAttempt(r.rows, i, j) :: At(r.rows, i, j).id == id
  }

  /** The branch at rest: it exists exactly when something was accepted, and points at the last acceptance. */
  predicate AtRest(w: World) {
    w.git.branch == w.plan.head
  }

  /** Selection would begin a new normal cycle although the last one ended in failure. */
  predicate FreshCycle(p: PlanRecord) {
    HasLast(p) && Last(p).state.Failed? && NextAttempt(p.steps[Done(p)], Low, p.Tip()).Some?
    && NextAttempt(p.steps[Done(p)], Low, p.Tip()).value.StartsNormal()
  }

  ghost predicate Announced(w: World) {
    FreshCycle(w.plan) ==> w.reports != [] && Lists(w.reports[|w.reports| - 1], Last(w.plan).id)
  }

  /** The latest report says completed and verified, and agrees with the rows. */
  predicate FinalReport(w: World) {
    && w.reports != []
    && w.reports[|w.reports| - 1].rows == w.plan.(state := PlanState.Completed)
    && w.reports[|w.reports| - 1].verified == Some(true)
  }

  function MadeFor(p: PlanRecord, i: nat, j: nat): Commit
    requires IsAttempt(p, i, j)
  {
    Commit(Some(At(p, i, j).parent), {}, {p.steps[i].id}, {KeyOf(p, i, j)}, {KeyOf(p, i, j)}, At(p, i, j).candidate.GetOr(0))
  }

  /** No ref update by the harness ever installed a commit made for this key. */
  ghost predicate NoMove(g: Git, key: Key) {
    forall k | 0 <= k < |g.moves| && g.moves[k].ByHarness? ::
      g.moves[k].tip in g.commits ==> key !in g.commits[g.moves[k].tip].keys
  }

  /** After its k-th move the branch contained the commit. */
  ghost predicate Held(g: Git, k: nat, c: CommitId)
    requires GraphOk(g.commits)
  {
    && k < |g.moves| && g.moves[k].Target().Some? && g.moves[k].Target().value in g.commits
    && Reaches(g.commits, g.moves[k].Target().value, c)
  }

  /** The branch has, at some moment, contained the commit. */
  ghost predicate WasOnBranch(g: Git, c: CommitId)
    requires GraphOk(g.commits)
  {
    exists k: nat :: Held(g, k, c)
  }

  /** What `finishAcceptance` and `acceptChanges` check of a commit found by key. */
  predicate Carries(p: PlanRecord, g: Git, c: CommitId)
    requires HasLast(p)
  {
    && c in g.commits
    && KeyOf(p, Done(p), LastIndex(p)) in g.commits[c].text
    && p.steps[Done(p)].id in g.commits[c].steps
    && g.commits[c].parent == Some(Last(p).parent)
  }

  // ---------------------------------------------------------------- writes

  datatype Action =
    | MarkFailed
    | MarkRunning
    | MarkCompleted
    | MarkCancelled
    | StartAttempt(complexity: Complexity)
    | RecordRecoveryRun
    | SetCandidate(snapshot: Snapshot)
    | SetAccepting
    | CreateCommit
    | MoveRef(tip: CommitId)
    | CompleteAcceptance(commit: CommitId)
    | FailAttempt(failure: string)
    | PutSnapshot(snapshot: Snapshot)
    | RemoveSnapshot(snapshot: Snapshot)
    | WriteReport(report: Report)
    | OtherCommit(made: Commit)
    | OtherMove(to: Option<CommitId>)
    | FailRead

  /** A commit anybody can make: its parents exist, and it names no attempt that is still to come. */
  predicate MayAppear(g: Git, nonce: nat, c: Commit) {
    && (forall d | d in c.Parents() :: d in g.commits)
    && c.keys <= c.text
    && (forall k | k in c.text :: k.attempt < nonce)
  }

  function Chosen(p: PlanRecord, complexity: Complexity): Option<Choice> {
    if Done(p) < |p.steps| then NextAttempt(p.steps[Done(p)], complexity, p.Tip()) else None
  }

  ghost predicate Enabled(w: World, a: Action) {
    var p := w.plan;
    match a
    case MarkFailed => p.Active()
    case MarkRunning => p.Active() && !AnyAccepting(p) && Announced(w)
    case MarkCompleted => p.Active() && Done(p) == |p.steps| && FinalReport(w) && w.snaps == {}
    case MarkCancelled => p.Active()
    case StartAttempt(complexity) =>
      p.state.Running? && !AnyAccepting(p) && Chosen(p, complexity).Some? && Chosen(p, complexity).value.Start?
    case RecordRecoveryRun => p.Active() && HasLast(p) && Last(p).state.Running?
    case SetCandidate(s) => p.Active() && HasLast(p) && Last(p).state.Running? && s in w.snaps
    case SetAccepting =>
      p.Active() && HasLast(p) && Last(p).state.Running? && Last(p).candidate.Some? && Last(p).candidate.value in w.snaps
      && Last(p).key == Some(KeyOf(p, Done(p), LastIndex(p)))
    case CreateCommit => p.Active() && HasLast(p) && Last(p).state.Accepting?
    case MoveRef(c) =>
      p.Active() && HasLast(p) && Last(p).state.Accepting? && AtRest(w)
      && c in w.git.commits && w.git.commits[c] == MadeFor(p, Done(p), LastIndex(p))
    case CompleteAcceptance(c) =>
      p.Active() && HasLast(p) && Last(p).state.Accepting? && Carries(p, w.git, c)
      && GraphOk(w.git.commits) && WasOnBranch(w.git, c)
    case FailAttempt(_) =>
      p.Active() && HasLast(p) && Last(p).Live() && NoMove(w.git, KeyOf(p, Done(p), LastIndex(p)))
      && (Calm(w.git) ==> forall k | 0 <= k < |w.reports| :: !Lists(w.reports[k], Last(p).id))
    case PutSnapshot(_) => p.Active()
    case RemoveSnapshot(s) =>
      p.state.Cancelled? || (HasLast(p) && Last(p).state.Accepting? ==> Last(p).candidate != Some(s))
    case WriteReport(r) =>
      && p.Active()
      && (r.rows == p || (r.rows == p.(state := PlanState.Completed) && r.verified == Some(true) && Done(p) == |p.steps|))
      && (Calm(w.git) ==> !AnyRunning(p))
    case OtherCommit(c) =>
      MayAppear(w.git, w.nonce, c)
    case OtherMove(to) => to.Some? ==> to.value in w.git.commits
    case FailRead => true
  }

  /** The plan's rows after the write. */
  ghost function RowsAfter(w: World, a: Action): PlanRecord
    requires Enabled(w, a)
  {
    var p := w.plan;
    match a
    case MarkFailed => p.(state := PlanState.Failed)
    case MarkRunning => p.(state := PlanState.Running)
    case MarkCompleted => p.(state := PlanState.Completed)
    case MarkCancelled => p.(state := PlanState.Cancelled)
    case StartAttempt(complexity) =>
      var c := Chosen(p, complexity).value;
      Started(p, Done(p), NewAttempt(w.nonce, c.profile, c.retryOf, c.parent))
    case RecordRecoveryRun =>
      WithAttempt(p, Done(p), LastIndex(p), Last(p).(runs := Last(p).runs + 1))
    case SetCandidate(s) =>
      WithAttempt(p, Done(p), LastIndex(p),
                  Last(p).(candidate := Some(s), key := Some(KeyOf(p, Done(p), LastIndex(p)))))
    case SetAccepting =>
      WithAttempt(p, Done(p), LastIndex(p), Last(p).(state := AttemptState.Accepting))
    case CompleteAcceptance(c) => Recorded(p, Done(p), LastIndex(p), c)
    case FailAttempt(text) => Stopped(p, Done(p), LastIndex(p), text)
    case _ => p
  }

  ghost function GitAfter(w: World, a: Action): Git
    requires Enabled(w, a)
  {
    match a
    case CreateCommit => w.git.(commits := w.git.commits[w.nonce := MadeFor(w.plan, Done(w.plan), LastIndex(w.plan))])
    case OtherCommit(c) => w.git.(commits := w.git.commits[w.nonce := c])
    case MoveRef(c) => Moved(w.git, ByHarness(c))
    case OtherMove(to) => Moved(w.git, ByOther(to))
    case FailRead => w.git.(misreads := w.git.misreads + 1)
    case _ => w.git
  }

  ghost function Apply(w: World, a: Action): World
    requires Enabled(w, a)
  {
    World(
      RowsAfter(w, a),
      GitAfter(w, a),
      match a {
        case PutSnapshot(s) => w.snaps + {s}
        case RemoveSnapshot(s) => w.snaps - {s}
        case _ => w.snaps
      },
      if a.WriteReport? then w.reports + [a.report] else w.reports,
      if a.StartAttempt? || a.CreateCommit? || a.OtherCommit? then w.nonce + 1 else w.nonce)
  }

  ghost predicate Next(w: World, w': World) {
    exists a :: Enabled(w, a) && w' == Apply(w, a)
  }

  ghost predicate Follows(ws: seq<World>, k: nat)
    requires 0 < k < |ws|
  {
    Next(ws[k - 1], ws[k])
  }

  /** A run: every world follows from the one before by one write. */
  ghost predicate IsRun(ws: seq<World>) {
    ws != [] && forall k: nat | 0 < k < |ws| :: Follows(ws, k)
  }

  /** The write that made a world of a run. */
  lemma StepOf(ws: seq<World>, k: nat) returns (a: Action)
    requires IsRun(ws) && 0 < k < |ws|
    ensures Enabled(ws[k - 1], a) && ws[k] == Apply(ws[k - 1], a)
  {
    assert Follows(ws, k);
    a :| Enabled(ws[k - 1], a) && ws[k] == Apply(ws[k - 1], a);
  }

  /** A newly registered plan, whatever the repository, the store and the report directory already hold. */
  ghost predicate Init(w: World) {
    && w.plan.state.Approved? && w.plan.head.None? && w.plan.steps != []
    && (forall i | 0 <= i < |w.plan.steps| ::
          !w.plan.steps[i].completed && w.plan.steps[i].commit.None? && w.plan.steps[i].attempts == [])
    && GitOk(w.git, w.nonce) && w.plan.base in w.git.commits
    && w.git.moves == (if w.git.branch.None? then [] else [ByOther(w.git.branch)])
    && (forall k, i: nat, j: nat | 0 <= k < |w.reports| && IsAttempt(w.reports[k].rows, i, j) ::
          At(w.reports[k].rows, i, j).id < w.nonce)
  }

  // ---------------------------------------------------------------- invariant

  /** Attempt ids are distinct, and younger than the plan's base commit. */
  ghost predicate IdsOk(p: PlanRecord, nonce: nat) {
    && p.base < nonce
    && (forall i: nat, j: nat | IsAttempt(p, i, j) :: p.base < At(p, i, j).id < nonce)
    && (forall i: nat, j: nat, k: nat, l: nat {:trigger At(p, i, j).id, At(p, k, l).id} |
            IsAttempt(p, i, j) && IsAttempt(p, k, l) && At(p, i, j).id == At(p, k, l).id ::
          i == k && j == l)
  }

  ghost predicate RecordedOk(p: PlanRecord, g: Git, i: nat)
    requires i < |p.steps|
  {
    && p.steps[i].commit.Some? && p.steps[i].attempts != []
    && p.steps[i].commit.value in g.commits
    && g.commits[p.steps[i].commit.value].parent == Some(ParentOf(p, i))
    && p.steps[i].id in g.commits[p.steps[i].commit.value].steps
    && KeyOf(p, i, |p.steps[i].attempts| - 1) in g.commits[p.steps[i].commit.value].text
  }

  ghost predicate LinkOk(p: PlanRecord, g: Git) {
    p.base in g.commits && forall i: nat | i < Done(p) :: RecordedOk(p, g, i)
  }

  /** An attempt that is running or has failed never moved the branch. */
  ghost predicate NeverMoved(p: PlanRecord, g: Git) {
    forall i: nat, j: nat | IsAttempt(p, i, j) && (At(p, i, j).state.Running? || At(p, i, j).state.Failed?) ::
      NoMove(g, KeyOf(p, i, j))
  }

  /** The harness's own move number `i` installed exactly the commit made for step `i`. */
  ghost predicate MoveOk(p: PlanRecord, g: Git, i: nat)
    requires i < |p.steps| && p.steps[i].attempts != [] && i < |g.moves| && g.moves[i].ByHarness?
  {
    g.moves[i].tip in g.commits && g.commits[g.moves[i].tip] == MadeFor(p, i, |p.steps[i].attempts| - 1)
  }

  /** Undisturbed, the move history is the list of recorded steps, plus at most one acceptance not recorded yet. */
  ghost predicate Ledger(p: PlanRecord, g: Git) {
    var n := Done(p);
    && Undisturbed(g)
    && n <= |g.moves| <= n + 1
    && (forall i: nat | i < n ::
          p.steps[i].attempts != [] && MoveOk(p, g, i) && p.steps[i].commit == Some(g.moves[i].tip))
    && (|g.moves| == n + 1 ==> HasLast(p) && Last(p).state.Accepting? && MoveOk(p, g, n))
  }

  ghost predicate CandidateKept(w: World) {
    !w.plan.state.Cancelled? && HasLast(w.plan) && Last(w.plan).state.Accepting? ==>
      Last(w.plan).candidate.Some? && Last(w.plan).candidate.value in w.snaps
  }

  /** What a report shows as failed is failed. */
  ghost predicate FailedStays(p: PlanRecord, e: AttemptRecord) {
    forall i: nat, j: nat | IsAttempt(p, i, j) && At(p, i, j).id == e.id :: e.state.Failed? ==> At(p, i, j).state.Failed?
  }

  ghost predicate EntryOk(p: PlanRecord, e: AttemptRecord) {
    forall i: nat, j: nat | IsAttempt(p, i, j) && At(p, i, j).id == e.id ::
      !At(p, i, j).state.Running? && (At(p, i, j).state.Failed? ==> e.state.Failed?)
  }

  /** In calm, a report never shows a running attempt, and shows every failed one as failed. */
  ghost predicate ReportsOk(w: World) {
    forall k, i: nat, j: nat | 0 <= k < |w.reports| && IsAttempt(w.reports[k].rows, i, j) ::
      && At(w.reports[k].rows, i, j).id < w.nonce
      && FailedStays(w.plan, At(w.reports[k].rows, i, j))
      && (Calm(w.git) ==> EntryOk(w.plan, At(w.reports[k].rows, i, j)))
  }

  ghost predicate Inv(w: World) {
    && w.plan.steps != []
    && PlanOk(w.plan)
    && GitOk(w.git, w.nonce)
    && IdsOk(w.plan, w.nonce)
    && LinkOk(w.plan, w.git)
    && NeverMoved(w.plan, w.git)
    && (Undisturbed(w.git) ==> Ledger(w.plan, w.git))
    && CandidateKept(w)
    && ReportsOk(w)
    && (w.plan.state.Approved? || w.plan.state.Running? ==> Announced(w))
    && (w.plan.state.Completed? ==> Done(w.plan) == |w.plan.steps| && FinalReport(w) && w.snaps == {})
  }

  lemma InitInv(w: World)
    requires Init(w)
    ensures Inv(w)
  {
    DoneUnique(w.plan, 0);
  }
}
