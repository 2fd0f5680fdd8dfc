/** The rows of the state database as values, and the row updates its transactions make (src/state/store.ts). */
module Records {
  import opened Wrappers
  import opened Failure

  /** Commit and attempt ids are nonces: issued in order, so nothing names one before it exists. */
  type CommitId = nat
  type AttemptId = nat
  /** A snapshot's content hash. */
  type Snapshot = nat
  type StepId = string

  /** The idempotency key as the tuple it hashes; SHA-256 is taken to be injective. */
  datatype Key = Key(manifest: string, planId: string, step: StepId, attempt: AttemptId, parent: CommitId)

  datatype ProfileId = CodexFast | CodexDeep | ClaudeBalanced | ClaudeDeep
  datatype PlanState = Approved | Running | Completed | Failed | Cancelled
  datatype AttemptState = Running | Accepting | Completed | Failed
  datatype AttemptKind = Normal | Stronger

  /** `retryOf` names the failed parent attempt by its position in the step's attempt list. */
  datatype AttemptRecord = AttemptRecord(
    id: AttemptId, profile: ProfileId, retryOf: Option<nat>, state: AttemptState, parent: CommitId, runs: nat,
    candidate: Option<Snapshot>, key: Option<Key>, commit: Option<CommitId>, failure: Option<string>)
  {
    function Kind(): AttemptKind {
      if retryOf.None? then Normal else Stronger
    }

    predicate Live() {
      state.Running? || state.Accepting?
    }
  }

  datatype StepRecord = StepRecord(id: StepId, completed: bool, commit: Option<CommitId>, attempts: seq<AttemptRecord>)

  datatype PlanRecord = PlanRecord(
    planId: string, manifest: string, repo: string, base: CommitId, head: Option<CommitId>, state: PlanState,
    steps: seq<StepRecord>)
  {
    /** A plan that still owns its repository. */
    predicate Active() {
      !state.Completed? && !state.Cancelled?
    }

    /** Where the next step builds: the recorded head, or the approved base. */
    function Tip(): CommitId {
      head.GetOr(base)
    }
  }

  // ---------------------------------------------------------------- reading rows

  function PendingFrom(steps: seq<StepRecord>, k: nat): (n: nat)
    requires k <= |steps|
    ensures k <= n <= |steps|
    ensures forall i | k <= i < n :: steps[i].completed
    ensures n < |steps| ==> !steps[n].completed
    decreases |steps| - k
  {
    if k < |steps| && steps[k].completed then PendingFrom(steps, k + 1) else k
  }

  /** The position of the first pending step, or the number of steps when none is pending. */
  function Done(p: PlanRecord): nat {
    PendingFrom(p.steps, 0)
  }

  lemma DoneUnique(p: PlanRecord, n: nat)
    requires n <= |p.steps|
    requires forall i | 0 <= i < n :: p.steps[i].completed
    requires n < |p.steps| ==> !p.steps[n].completed
    ensures Done(p) == n
  {
  }

  predicate IsAttempt(p: PlanRecord, i: nat, j: nat) {
    i < |p.steps| && j < |p.steps[i].attempts|
  }

  function At(p: PlanRecord, i: nat, j: nat): AttemptRecord
    requires IsAttempt(p, i, j)
  {
    p.steps[i].attempts[j]
  }

  predicate IsLast(p: PlanRecord, i: nat, j: nat) {
    IsAttempt(p, i, j) && j + 1 == |p.steps[i].attempts|
  }

  /** The commit step `i` is built on. */
  function ParentOf(p: PlanRecord, i: nat): CommitId {
    if 0 < i <= |p.steps| then p.steps[i - 1].commit.GetOr(p.base) else p.base
  }

  function KeyOf(p: PlanRecord, i: nat, j: nat): Key
    requires IsAttempt(p, i, j)
  {
    Key(p.manifest, p.planId, p.steps[i].id, At(p, i, j).id, At(p, i, j).parent)
  }

  /** Two attempts, of one plan or of two, have the same key exactly when everything that went into it agrees. */
  lemma KeyMeans(p: PlanRecord, i: nat, j: nat, q: PlanRecord, k: nat, l: nat)
    requires IsAttempt(p, i, j) && IsAttempt(q, k, l)
    ensures KeyOf(p, i, j) == KeyOf(q, k, l)
            <==> && p.manifest == q.manifest && p.planId == q.planId && p.steps[i].id == q.steps[k].id
                 && At(p, i, j).id == At(q, k, l).id && At(p, i, j).parent == At(q, k, l).parent
  {
  }

  /** The one attempt that can be live: the last attempt of the first pending step. */
  predicate HasLast(p: PlanRecord) {
    Done(p) < |p.steps| && p.steps[Done(p)].attempts != []
  }

  function LastIndex(p: PlanRecord): nat
    requires HasLast(p)
  {
    |p.steps[Done(p)].attempts| - 1
  }

  function Last(p: PlanRecord): AttemptRecord
    requires HasLast(p)
  {
    At(p, Done(p), LastIndex(p))
  }

  ghost predicate AnyAccepting(p: PlanRecord) {
    exists i: nat, j: nat | IsAttempt(p, i, j) :: At(p, i, j).state.Accepting?
  }

  ghost predicate AnyRunning(p: PlanRecord) {
    exists i: nat, j: nat | IsAttempt(p, i, j) :: At(p, i, j).state.Running?
  }

  // ---------------------------------------------------------------- row updates

  function WithAttempts(p: PlanRecord, i: nat, attempts: seq<AttemptRecord>): PlanRecord
    requires i < |p.steps|
  {
    p.(steps := p.steps[i := p.steps[i].(attempts := attempts)])
  }

  function WithAttempt(p: PlanRecord, i: nat, j: nat, a: AttemptRecord): PlanRecord
    requires IsAttempt(p, i, j)
  {
    WithAttempts(p, i, p.steps[i].attempts[j := a])
  }

  function NewAttempt(id: AttemptId, profile: ProfileId, retryOf: Option<nat>, parent: CommitId): AttemptRecord {
    AttemptRecord(id, profile, retryOf, AttemptState.Running, parent, 1, None, None, None, None)
  }

  function Started(p: PlanRecord, i: nat, a: AttemptRecord): PlanRecord
    requires i < |p.steps|
  {
    WithAttempts(p, i, p.steps[i].attempts + [a])
  }

  /** `failPlan`: attempt and plan stop together. */
  function Stopped(p: PlanRecord, i: nat, j: nat, failure: string): PlanRecord
    requires IsAttempt(p, i, j)
  {
    WithAttempt(p, i, j, At(p, i, j).(state := AttemptState.Failed, failure := Some(failure)))
      .(state := PlanState.Failed)
  }

  /** `completeAcceptance`: attempt, step and head move together. */
  function Recorded(p: PlanRecord, i: nat, j: nat, c: CommitId): PlanRecord
    requires IsAttempt(p, i, j)
  {
    var a := At(p, i, j).(state := AttemptState.Completed, commit := Some(c));
    var s := p.steps[i].(attempts := p.steps[i].attempts[j := a], completed := true, commit := Some(c));
    p.(steps := p.steps[i := s], head := Some(c))
  }

  // ---------------------------------------------------------------- the rows' own invariant

  /** The retry column follows the grammar (normal | normal stronger)*. */
  predicate RetryOk(attempts: seq<AttemptRecord>, j: nat)
    requires j < |attempts|
  {
    if attempts[j].retryOf.Some? then
      j > 0 && attempts[j].retryOf == Some(j - 1) && attempts[j - 1].retryOf.None?
      && RetryableText(attempts[j - 1].failure)
    else
      j > 0 && attempts[j - 1].retryOf.None? ==> !RetryableText(attempts[j - 1].failure)
  }

  predicate AttemptOk(p: PlanRecord, i: nat, j: nat)
    requires IsAttempt(p, i, j)
  {
    var a := At(p, i, j);
    && a.parent == ParentOf(p, i)
    && (!IsLast(p, i, j) ==> a.state.Failed?)
    && (a.state.Failed? ==> a.failure.Some?)
    && (a.state.Accepting? || a.state.Completed? ==> a.candidate.Some? && a.key == Some(KeyOf(p, i, j)))
    && (a.state.Completed? <==> IsLast(p, i, j) && p.steps[i].completed)
    && (a.state.Completed? ==> a.commit.Some? && a.commit == p.steps[i].commit)
    && RetryOk(p.steps[i].attempts, j)
  }

  /** Completed steps are a prefix, the head is the last one's commit, and only the first pending step is worked on. */
  ghost predicate PlanOk(p: PlanRecord) {
    var n := Done(p);
    && (forall i | 0 <= i < n :: p.steps[i].commit.Some? && p.steps[i].attempts != [])
    && (forall i | n <= i < |p.steps| :: !p.steps[i].completed && p.steps[i].commit.None?)
    && (forall i | n < i < |p.steps| :: p.steps[i].attempts == [])
    && p.head == (if n == 0 then None else p.steps[n - 1].commit)
    && (forall i: nat, j: nat | IsAttempt(p, i, j) :: AttemptOk(p, i, j))
  }

  lemma TipIsParent(p: PlanRecord)
    requires PlanOk(p)
    ensures ParentOf(p, Done(p)) == p.Tip()
  {
  }

  /** Live attempts exist only as the last attempt of the first pending step. */
  lemma LiveIsLast(p: PlanRecord, i: nat, j: nat)
    requires PlanOk(p) && IsAttempt(p, i, j) && At(p, i, j).Live()
    ensures i == Done(p) && HasLast(p) && j == LastIndex(p)
  {
    assert AttemptOk(p, i, j);
  }

  // ---------------------------------------------------------------- every update keeps it

  lemma StateKeepsPlan(p: PlanRecord, s: PlanState)
    requires PlanOk(p)
    ensures PlanOk(p.(state := s)) && Done(p.(state := s)) == Done(p)
  {
    var q := p.(state := s);
    DoneUnique(q, Done(p));
    forall i: nat, j: nat | IsAttempt(q, i, j) ensures AttemptOk(q, i, j) {
      assert AttemptOk(p, i, j) && At(q, i, j) == At(p, i, j);
    }
  }

  lemma StartKeepsPlan(p: PlanRecord, a: AttemptRecord)
    requires PlanOk(p) && Done(p) < |p.steps|
    requires a.state.Running? && a.parent == p.Tip()
    requires HasLast(p) ==> Last(p).state.Failed?
    requires RetryOk(p.steps[Done(p)].attempts + [a], |p.steps[Done(p)].attempts|)
    ensures PlanOk(Started(p, Done(p), a)) && Done(Started(p, Done(p), a)) == Done(p)
  {
    var n := Done(p);
    var q := Started(p, n, a);
    DoneUnique(q, n);
    forall i: nat, j: nat | IsAttempt(q, i, j) ensures AttemptOk(q, i, j) {
      assert ParentOf(q, i) == ParentOf(p, i);
      if i == n && j == |p.steps[n].attempts| {
      } else {
        assert AttemptOk(p, i, j) && At(q, i, j) == At(p, i, j);
      }
    }
  }

  /** Rewriting the live attempt's own columns. */
  lemma UpdateKeepsPlan(p: PlanRecord, a: AttemptRecord)
    requires PlanOk(p) && HasLast(p)
    requires !a.state.Completed? && a.parent == Last(p).parent && a.retryOf == Last(p).retryOf
    requires a.state.Failed? ==> a.failure.Some?
    requires a.id == Last(p).id
    requires a.state.Accepting? ==> a.candidate.Some? && a.key == Some(KeyOf(p, Done(p), LastIndex(p)))
    ensures PlanOk(WithAttempt(p, Done(p), LastIndex(p), a))
    ensures Done(WithAttempt(p, Done(p), LastIndex(p), a)) == Done(p)
  {
    var n, l := Done(p), LastIndex(p);
    var q := WithAttempt(p, n, l, a);
    DoneUnique(q, n);
    forall i: nat, j: nat | IsAttempt(q, i, j) ensures AttemptOk(q, i, j) {
      assert ParentOf(q, i) == ParentOf(p, i);
      assert AttemptOk(p, i, j);
      if i == n && j == l {
      } else {
        assert At(q, i, j) == At(p, i, j);
      }
    }
  }

  lemma RecordKeepsPlan(p: PlanRecord, c: CommitId)
    requires PlanOk(p) && HasLast(p) && Last(p).state.Accepting?
    ensures PlanOk(Recorded(p, Done(p), LastIndex(p), c))
    ensures Done(Recorded(p, Done(p), LastIndex(p), c)) == Done(p) + 1
  {
    var n, l := Done(p), LastIndex(p);
    var q := Recorded(p, n, l, c);
    DoneUnique(q, n + 1);
    forall i: nat, j: nat | IsAttempt(q, i, j) ensures AttemptOk(q, i, j) {
      assert i <= n;
      assert ParentOf(q, i) == ParentOf(p, i);
      assert AttemptOk(p, i, j);
      if i == n && j == l {
      } else {
        assert At(q, i, j) == At(p, i, j);
      }
    }
  }

  /** The step after a recorded one has not been attempted yet. */
  lemma NextHasNoAttempts(p: PlanRecord, c: CommitId)
    requires PlanOk(p) && HasLast(p)
    ensures !HasLast(Recorded(p, Done(p), LastIndex(p), c))
  {
    DoneUnique(Recorded(p, Done(p), LastIndex(p), c), Done(p) + 1);
  }

  lemma SameRows(p: PlanRecord, state: PlanState)
    ensures Done(p.(state := state)) == Done(p)
    ensures AnyAccepting(p.(state := state)) == AnyAccepting(p) && AnyRunning(p.(state := state)) == AnyRunning(p)
  {
    var q := p.(state := state);
    DoneUnique(q, Done(p));
    assert forall i: nat, j: nat :: IsAttempt(q, i, j) <==> IsAttempt(p, i, j);
    assert forall i: nat, j: nat | IsAttempt(p, i, j) :: At(q, i, j) == At(p, i, j);
  }

  lemma NothingLive(p: PlanRecord)
    requires PlanOk(p) && (HasLast(p) ==> !Last(p).Live())
    ensures !AnyAccepting(p) && !AnyRunning(p)
  {
    forall i: nat, j: nat | IsAttempt(p, i, j) ensures !At(p, i, j).Live() {
      if At(p, i, j).Live() {
        LiveIsLast(p, i, j);
      }
    }
  }
}
