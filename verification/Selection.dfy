/** One step's next attempt, decided from stored rows alone (src/run/selection.ts). */
module Selection {
  import opened Wrappers
  import opened Failure
  import opened Records

  datatype Complexity = Low | Medium | High

  function NormalProfile(c: Complexity): ProfileId {
    match c
    case Low => CodexFast
    case Medium => ClaudeBalanced
    case High => CodexDeep
  }

  datatype Choice =
    | Start(profile: ProfileId, parent: CommitId, retryOf: Option<nat>)
    | Reuse(index: nat, parent: CommitId, kind: AttemptKind)
  {
    predicate StartsNormal() {
      Start? && retryOf.None?
    }

    predicate Stronger() {
      (Start? && retryOf.Some?) || (Reuse? && kind.Stronger?)
    }
  }

  /** The first running attempt, by ordinal. */
  function FirstRunning(attempts: seq<AttemptRecord>, k: nat): (r: Option<nat>)
    requires k <= |attempts|
    ensures r.None? ==> forall j | k <= j < |attempts| :: !attempts[j].state.Running?
    ensures r.Some? ==> k <= r.value < |attempts| && attempts[r.value].state.Running?
    ensures r.Some? ==> forall j | k <= j < r.value :: !attempts[j].state.Running?
    decreases |attempts| - k
  {
    if k == |attempts| then None
    else if attempts[k].state.Running? then Some(k)
    else FirstRunning(attempts, k + 1)
  }

  function NextAttempt(step: StepRecord, complexity: Complexity, parent: CommitId): (r: Option<Choice>) {
    if step.completed then None
    else
      var attempts := step.attempts;
      match FirstRunning(attempts, 0)
      case Some(j) => Some(Reuse(j, attempts[j].parent, attempts[j].Kind()))
      case None =>
        var last := |attempts| - 1;
        if attempts != [] && attempts[last].Kind().Normal? && attempts[last].state.Failed?
           && RetryableText(attempts[last].failure)
           && !(exists j | 0 <= j < |attempts| :: attempts[j].retryOf == Some(last))
        then Some(Start(ClaudeDeep, attempts[last].parent, Some(last)))
        else Some(Start(NormalProfile(complexity), parent, None))
  }

  /** Executor calls the current pending step can still cost in one invocation. */
  function Budget(p: PlanRecord): (calls: nat)
    ensures calls <= 2
  {
    if Done(p) == |p.steps| then 0
    else
      match NextAttempt(p.steps[Done(p)], Low, p.Tip())
      case Some(c) => if c.Stronger() then 1 else 2
      case None => 0
  }

  /** What selection chooses for the first pending step, told by its last attempt alone. */
  lemma NextAttemptMeaning(p: PlanRecord, complexity: Complexity)
    requires PlanOk(p) && Done(p) < |p.steps| && !AnyAccepting(p)
    ensures
      var r := NextAttempt(p.steps[Done(p)], complexity, p.Tip());
      var attempts := p.steps[Done(p)].attempts;
      && r.Some?
      && r.value.parent == p.Tip()
      && (r.value.Reuse? <==> HasLast(p) && Last(p).state.Running?)
      && (r.value.Reuse? ==> r.value.index == LastIndex(p) && r.value.kind == Last(p).Kind())
      && (r.value.Start? && HasLast(p) ==> Last(p).state.Failed?)
      && (r.value.Start? ==>
            (r.value.retryOf.Some? <==> HasLast(p) && Last(p).Kind().Normal? && RetryableText(Last(p).failure)))
      && (r.value.Start? && r.value.retryOf.Some? ==> r.value.retryOf == Some(LastIndex(p)) && r.value.profile == ClaudeDeep)
      && (r.value.Start? && r.value.retryOf.None? ==> r.value.profile == NormalProfile(complexity))
      && (r.value.Start? ==> RetryOk(attempts + [NewAttempt(0, r.value.profile, r.value.retryOf, p.Tip())], |attempts|))
  {
    TipIsParent(p);
    var n := Done(p);
    var attempts := p.steps[n].attempts;
    forall j: nat | j < |attempts| ensures AttemptOk(p, n, j) && attempts[j] == At(p, n, j) {
    }
    if attempts != [] {
      var last := |attempts| - 1;
      assert AttemptOk(p, n, last) && !At(p, n, last).state.Accepting?;
      assert forall j | 0 <= j < last :: attempts[j].state.Failed? by {
        forall j | 0 <= j < last ensures attempts[j].state.Failed? {
          assert AttemptOk(p, n, j);
        }
      }
      assert forall j | 0 <= j < |attempts| :: attempts[j].retryOf != Some(last) by {
        forall j | 0 <= j < |attempts| ensures attempts[j].retryOf != Some(last) {
          assert AttemptOk(p, n, j);
        }
      }
    }
  }
}
