/** Which profile an attempt runs with: the route of its step's complexity, or the stronger one (src/routing/profiles.ts). */
module Routing {
  import opened Records
  import opened Selection
  import opened Protocol
  import opened Preservation

  /** The profile of a normal attempt is its step's route; a retry runs with the strongest. */
  predicate Fits(a: AttemptRecord, c: Complexity) {
    if a.retryOf.Some? then a.profile == ClaudeDeep
    else match c
      case Low => a.profile == CodexFast
      case Medium => a.profile == ClaudeBalanced
      case High => a.profile == CodexDeep
  }

  predicate SameAttempt(a: AttemptRecord, b: AttemptRecord) {
    b.id == a.id && b.profile == a.profile && b.retryOf == a.retryOf && b.parent == a.parent
  }

  /** The same steps, with every attempt still there under its own id, profile and place in the retry order. */
  ghost predicate Kept(p: PlanRecord, q: PlanRecord) {
    && |q.steps| == |p.steps|
    && (forall i | 0 <= i < |p.steps| :: q.steps[i].id == p.steps[i].id)
    && (forall i: nat, j: nat | IsAttempt(p, i, j) :: IsAttempt(q, i, j) && SameAttempt(At(p, i, j), At(q, i, j)))
  }

  /** The attempts are kept, and each new one has the profile that fits its own step. */
  ghost predicate OnRoute(p: PlanRecord, q: PlanRecord, complexities: seq<Complexity>) {
    && Kept(p, q)
    && (forall i: nat, j: nat | IsAttempt(q, i, j) && !IsAttempt(p, i, j) :: i < |complexities| && Fits(At(q, i, j), complexities[i]))
  }

  lemma OnRouteTransitive(p: PlanRecord, q: PlanRecord, r: PlanRecord, complexities: seq<Complexity>)
    requires OnRoute(p, q, complexities) && OnRoute(q, r, complexities)
    ensures OnRoute(p, r, complexities)
  {
    forall i: nat, j: nat | IsAttempt(p, i, j) ensures IsAttempt(r, i, j) && SameAttempt(At(p, i, j), At(r, i, j)) {
      assert IsAttempt(q, i, j) && SameAttempt(At(p, i, j), At(q, i, j));
    }
    forall i: nat, j: nat | IsAttempt(r, i, j) && !IsAttempt(p, i, j)
      ensures i < |complexities| && Fits(At(r, i, j), complexities[i])
    {
      if IsAttempt(q, i, j) {
        assert SameAttempt(At(q, i, j), At(r, i, j));
      }
    }
  }

  /** The write starts an attempt only by the complexity of the step it is for. */
  predicate ByOwnComplexity(p: PlanRecord, a: Action, complexities: seq<Complexity>) {
    a.StartAttempt? ==> Done(p) < |complexities| && a.complexity == complexities[Done(p)]
  }

  lemma StartOnRoute(w: World, a: Action, complexities: seq<Complexity>)
    requires Inv(w) && Enabled(w, a) && a.StartAttempt? && ByOwnComplexity(w.plan, a, complexities)
    ensures OnRoute(w.plan, RowsAfter(w, a), complexities)
  {
    StartShape(w, a);
    NextAttemptMeaning(w.plan, a.complexity);
  }

  lemma OnRouteStep(w: World, a: Action, complexities: seq<Complexity>)
    requires Inv(w) && Enabled(w, a) && ByOwnComplexity(w.plan, a, complexities)
    ensures OnRoute(w.plan, RowsAfter(w, a), complexities)
  {
    if a.StartAttempt? {
      StartOnRoute(w, a, complexities);
    } else {
      RowsShape(w, a);
    }
  }

  ghost predicate RoutedAt(ws: seq<World>, k: nat, complexities: seq<Complexity>)
    requires 0 < k < |ws|
  {
    OnRoute(ws[k - 1].plan, ws[k].plan, complexities)
  }

  /** Every write along the way keeps to the route. */
  ghost predicate Routed(ws: seq<World>, complexities: seq<Complexity>) {
    forall k: nat | 0 < k < |ws| :: RoutedAt(ws, k, complexities)
  }

  lemma {:induction false} RoutedAlong(ws: seq<World>, complexities: seq<Complexity>, j: nat, k: nat)
    requires Routed(ws, complexities) && j <= k < |ws|
    ensures OnRoute(ws[j].plan, ws[k].plan, complexities)
    decreases k
  {
    if j < k {
      RoutedAlong(ws, complexities, j, k - 1);
      assert RoutedAt(ws, k, complexities);
      OnRouteTransitive(ws[j].plan, ws[k - 1].plan, ws[k].plan, complexities);
    }
  }
}
