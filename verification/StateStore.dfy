/** The persistent progress record: plans, their ordered steps and their attempts (src/state/store.ts). */
module StateStores {
  import opened Wrappers
  import opened Records

  datatype RegisterInput = RegisterInput(
    planId: string, manifest: string, repo: string, base: CommitId, steps: seq<StepId>)

  /** The partial unique index: one live plan per repository. */
  ghost predicate OneOwner(plans: seq<PlanRecord>) {
    forall i, j | 0 <= i < j < |plans| :: plans[i].Active() && plans[j].Active() ==> plans[i].repo != plans[j].repo
  }

  function NewPlan(input: RegisterInput): PlanRecord {
    PlanRecord(input.planId, input.manifest, input.repo, input.base, None, PlanState.Approved,
               seq(|input.steps|, i requires 0 <= i < |input.steps| => StepRecord(input.steps[i], false, None, [])))
  }

  /** A plan nothing has been done for: the approved steps in their order, all pending, on the approved base. */
  ghost predicate IsFresh(p: PlanRecord, input: RegisterInput) {
    && p.planId == input.planId && p.manifest == input.manifest && p.repo == input.repo && p.base == input.base
    && p.head.None? && p.state.Approved? && |p.steps| == |input.steps|
    && forall i | 0 <= i < |input.steps| ::
         p.steps[i].id == input.steps[i] && !p.steps[i].completed && p.steps[i].commit.None? && p.steps[i].attempts == []
  }

  predicate From(p: PlanRecord, repo: string, manifest: string) {
    p.repo == repo && p.manifest == manifest
  }

  /** Some plan, finished or not, was registered from the input's manifest. */
  ghost predicate Known(plans: seq<PlanRecord>, repo: string, manifest: string) {
    exists i | 0 <= i < |plans| :: From(plans[i], repo, manifest)
  }

  ghost predicate Owns(p: PlanRecord, repo: string) {
    p.Active() && p.repo == repo
  }

  class StateStore {
    var plans: seq<PlanRecord>

    ghost predicate Valid() reads this {
      OneOwner(plans)
    }

    constructor ()
      ensures Valid() && plans == []
    {
      plans := [];
    }

    /** The live plan of the repository, if it has one. */
    method ActivePlan(repo: string) returns (r: Option<nat>)
      requires Valid()
      ensures r.Some? ==> r.value < |plans| && Owns(plans[r.value], repo)
      ensures forall k | 0 <= k < |plans| && Owns(plans[k], repo) :: r == Some(k)
    {
      for i := 0 to |plans|
        invariant forall k | 0 <= k < i :: !Owns(plans[k], repo)
      {
        if plans[i].Active() && plans[i].repo == repo {
          assert Owns(plans[i], repo);
          return Some(i);
        }
      }
      return None;
    }

    /** The first plan, finished or not, that was registered from this manifest. */
    method PlanFor(repo: string, manifest: string) returns (r: Option<nat>)
      ensures r.Some? ==> r.value < |plans| && From(plans[r.value], repo, manifest)
      ensures forall k | 0 <= k < |plans| && From(plans[k], repo, manifest) :: r.Some? && r.value <= k
    {
      for i := 0 to |plans|
        invariant forall k | 0 <= k < i :: !From(plans[k], repo, manifest)
      {
        if plans[i].repo == repo && plans[i].manifest == manifest {
          assert From(plans[i], repo, manifest);
          return Some(i);
        }
      }
      return None;
    }

    /**
     * The active plan of the repository when it has this manifest; an error when another manifest owns it;
     * otherwise the plan this manifest already finished; otherwise a new plan.
     */
    method RegisterPlan(input: RegisterInput) returns (r: Result<nat, string>)
      requires Valid()
      modifies this
      ensures Valid()
      ensures r.Err? <==> exists i | 0 <= i < |old(plans)| :: Owns(old(plans)[i], input.repo) && old(plans)[i].manifest != input.manifest
      ensures r.Err? ==> plans == old(plans)
      ensures r.Ok? ==> r.value < |plans| && From(plans[r.value], input.repo, input.manifest)
      ensures r.Ok? ==> plans == old(plans) || (plans == old(plans) + [NewPlan(input)] && r.value == |old(plans)|)
      ensures r.Ok? && !Known(old(plans), input.repo, input.manifest) ==>
                r.value == |old(plans)| && |plans| == r.value + 1 && IsFresh(plans[r.value], input)
      ensures r.Ok? && Known(old(plans), input.repo, input.manifest) ==>
                plans == old(plans)
      ensures r.Ok? ==> forall i | 0 <= i < |plans| && Owns(plans[i], input.repo) :: i == r.value
    {
      var active := ActivePlan(input.repo);
      if active.Some? {
        if plans[active.value].manifest == input.manifest {
          return Ok(active.value);
        }
        return Err("the repository is owned by another plan");
      }
      var finished := PlanFor(input.repo, input.manifest);
      if finished.Some? {
        return Ok(finished.value);
      }
      plans := plans + [NewPlan(input)];
      return Ok(|plans| - 1);
    }

    /** False, changing nothing, when the index refuses to make a retired plan live again beside its successor. */
    method SetPlanState(row: nat, s: PlanState) returns (ok: bool)
      requires Valid() && row < |plans|
      modifies this
      ensures Valid()
      ensures plans == if ok then old(plans)[row := old(plans)[row].(state := s)] else old(plans)
      ensures old(plans)[row].Active() ==> ok
    {
      var updated := plans[row].(state := s);
      if updated.Active() && !plans[row].Active() {
        for i := 0 to |plans|
          invariant plans == old(plans)
          invariant forall k | 0 <= k < i :: !Owns(plans[k], updated.repo)
        {
          if plans[i].Active() && plans[i].repo == updated.repo {
            return false;
          }
        }
        assert forall k | 0 <= k < |plans| && plans[k].Active() :: !Owns(plans[k], updated.repo);
      }
      plans := plans[row := updated];
      return true;
    }

    method CancelPlan(repo: string, manifest: string) returns (r: Result<nat, string>)
      requires Valid()
      modifies this
      ensures Valid()
      ensures r.Ok? <==> exists i | 0 <= i < |old(plans)| :: Owns(old(plans)[i], repo) && old(plans)[i].manifest == manifest
      ensures r.Err? ==> plans == old(plans)
      ensures r.Ok? ==> r.value < |old(plans)| && Owns(old(plans)[r.value], repo) && old(plans)[r.value].manifest == manifest
      ensures r.Ok? ==> plans == old(plans)[r.value := old(plans)[r.value].(state := PlanState.Cancelled)]
      ensures r.Ok? ==> forall i | 0 <= i < |plans| :: !Owns(plans[i], repo)
    {
      var active := ActivePlan(repo);
      if active.None? {
        return Err("no active plan owns the repository");
      }
      if plans[active.value].manifest != manifest {
        return Err("the repository is owned by another manifest");
      }
      var ok := SetPlanState(active.value, PlanState.Cancelled);
      return Ok(active.value);
    }

    /** `ORDER BY position LIMIT 1` over the pending rows. */
    method NextPendingStep(row: nat) returns (r: Option<nat>)
      requires row < |plans|
      ensures r == if Done(plans[row]) < |plans[row].steps| then Some(Done(plans[row])) else None
    {
      var steps := plans[row].steps;
      for i := 0 to |steps|
        invariant forall k | 0 <= k < i :: steps[k].completed
      {
        if !steps[i].completed {
          DoneUnique(plans[row], i);
          return Some(i);
        }
      }
      DoneUnique(plans[row], |steps|);
      return None;
    }

    /** Exactly one plan row is replaced. */
    ghost predicate Replaced(before: seq<PlanRecord>, row: nat, p: PlanRecord)
      requires row < |before|
      reads this
    {
      plans == before[row := p]
    }

    method StartAttempt(row: nat, i: nat, id: AttemptId, profile: ProfileId, retryOf: Option<nat>, parent: CommitId)
      requires Valid() && row < |plans| && i < |plans[row].steps|
      modifies this
      ensures Valid()
      ensures Replaced(old(plans), row, Started(old(plans)[row], i, NewAttempt(id, profile, retryOf, parent)))
    {
      plans := plans[row := Started(plans[row], i, NewAttempt(id, profile, retryOf, parent))];
    }

    method SetAttemptState(row: nat, i: nat, j: nat, s: AttemptState)
      requires Valid() && row < |plans| && IsAttempt(plans[row], i, j)
      modifies this
      ensures Valid()
      ensures Replaced(old(plans), row, WithAttempt(old(plans)[row], i, j, At(old(plans)[row], i, j).(state := s)))
    {
      plans := plans[row := WithAttempt(plans[row], i, j, At(plans[row], i, j).(state := s))];
    }

    method SetAttemptCandidate(row: nat, i: nat, j: nat, snapshot: Snapshot, key: Key)
      requires Valid() && row < |plans| && IsAttempt(plans[row], i, j)
      modifies this
      ensures Valid()
      ensures Replaced(old(plans), row,
                       WithAttempt(old(plans)[row], i, j, At(old(plans)[row], i, j).(candidate := Some(snapshot), key := Some(key))))
    {
      plans := plans[row := WithAttempt(plans[row], i, j, At(plans[row], i, j).(candidate := Some(snapshot), key := Some(key)))];
    }

    method RecordRecoveryRun(row: nat, i: nat, j: nat)
      requires Valid() && row < |plans| && IsAttempt(plans[row], i, j)
      modifies this
      ensures Valid()
      ensures Replaced(old(plans), row,
                       WithAttempt(old(plans)[row], i, j, At(old(plans)[row], i, j).(runs := At(old(plans)[row], i, j).runs + 1)))
    {
      plans := plans[row := WithAttempt(plans[row], i, j, At(plans[row], i, j).(runs := At(plans[row], i, j).runs + 1))];
    }

    /** One transaction: the attempt and its plan fail together. */
    method FailPlan(row: nat, i: nat, j: nat, failure: string)
      requires Valid() && row < |plans| && IsAttempt(plans[row], i, j) && plans[row].Active()
      modifies this
      ensures Valid()
      ensures Replaced(old(plans), row, Stopped(old(plans)[row], i, j, failure))
    {
      plans := plans[row := Stopped(plans[row], i, j, failure)];
    }

    /** One transaction: attempt, step and plan head. */
    method CompleteAcceptance(row: nat, i: nat, j: nat, commit: CommitId)
      requires Valid() && row < |plans| && IsAttempt(plans[row], i, j)
      modifies this
      ensures Valid()
      ensures Replaced(old(plans), row, Recorded(old(plans)[row], i, j, commit))
    {
      plans := plans[row := Recorded(plans[row], i, j, commit)];
    }
  }
}
