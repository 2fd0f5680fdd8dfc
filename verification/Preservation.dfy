/** Every durable write keeps the protocol's invariant, so every crash point of every run satisfies it. */
module Preservation {
  import opened Wrappers
  import opened Records
  import opened Selection
  import opened Commits
  import opened Protocol

  // ---------------------------------------------------------------- one component at a time

  lemma StartStep(w: World, complexity: Complexity)
    requires Inv(w) && Enabled(w, StartAttempt(complexity))
    ensures PlanOk(RowsAfter(w, StartAttempt(complexity)))
  {
    var c := Chosen(w.plan, complexity).value;
    TipIsParent(w.plan);
    NextAttemptMeaning(w.plan, complexity);
    StartKeepsPlan(w.plan, NewAttempt(w.nonce, c.profile, c.retryOf, c.parent));
  }

  /** Attempt for attempt, how the rows after a write relate to the rows before. */
  ghost predicate SameButLast(p: PlanRecord, q: PlanRecord) {
    && q.planId == p.planId && q.manifest == p.manifest && q.base == p.base
    && |q.steps| == |p.steps|
    && (forall i | 0 <= i < |p.steps| :: q.steps[i].id == p.steps[i].id && |q.steps[i].attempts| == |p.steps[i].attempts|)
    && (forall i: nat, j: nat | IsAttempt(p, i, j) ::
          && At(q, i, j).id == At(p, i, j).id && At(q, i, j).parent == At(p, i, j).parent
          && At(q, i, j).profile == At(p, i, j).profile && At(q, i, j).retryOf == At(p, i, j).retryOf
          && ((HasLast(p) && i == Done(p) && j == LastIndex(p)) || At(q, i, j) == At(p, i, j)))
  }

  lemma SameButLastOf(p: PlanRecord, a: AttemptRecord, state: PlanState)
    requires HasLast(p) && a.id == Last(p).id && a.parent == Last(p).parent
    requires a.profile == Last(p).profile && a.retryOf == Last(p).retryOf
    ensures var q := WithAttempt(p, Done(p), LastIndex(p), a).(state := state);
            SameButLast(p, q) && Done(q) == Done(p) && forall i | 0 <= i < Done(p) :: q.steps[i] == p.steps[i]
  {
    DoneUnique(WithAttempt(p, Done(p), LastIndex(p), a).(state := state), Done(p));
  }

  lemma RecordedShape(p: PlanRecord, c: CommitId)
    requires PlanOk(p) && HasLast(p) && Last(p).state.Accepting?
    ensures var q := Recorded(p, Done(p), LastIndex(p), c);
            SameButLast(p, q) && Done(q) == Done(p) + 1 && forall i | 0 <= i < Done(p) :: q.steps[i] == p.steps[i]
  {
    RecordKeepsPlan(p, c);
  }

  /** Writes that rewrite the live attempt's own columns. */
  predicate RewritesLast(a: Action) {
    a.RecordRecoveryRun? || a.SetCandidate? || a.SetAccepting? || a.FailAttempt?
  }

  /** The live attempt's row after such a write. */
  function LiveAfter(p: PlanRecord, a: Action): AttemptRecord
    requires HasLast(p) && RewritesLast(a)
  {
    match a
    case RecordRecoveryRun => Last(p).(runs := Last(p).runs + 1)
    case SetCandidate(s) => Last(p).(candidate := Some(s), key := Some(KeyOf(p, Done(p), LastIndex(p))))
    case SetAccepting => Last(p).(state := AttemptState.Accepting)
    case FailAttempt(text) => Last(p).(state := AttemptState.Failed, failure := Some(text))
  }

  lemma LiveShape(w: World, a: Action)
    requires Inv(w) && Enabled(w, a) && RewritesLast(a)
    ensures SameButLast(w.plan, RowsAfter(w, a)) && Done(RowsAfter(w, a)) == Done(w.plan)
    ensures forall i | 0 <= i < Done(w.plan) :: RowsAfter(w, a).steps[i] == w.plan.steps[i]
  {
    SameButLastOf(w.plan, LiveAfter(w.plan, a), RowsAfter(w, a).state);
  }

  lemma OnlyState(w: World, a: Action)
    requires Inv(w) && Enabled(w, a) && !RewritesLast(a) && !a.StartAttempt? && !a.CompleteAcceptance?
    ensures RowsAfter(w, a) == w.plan.(state := RowsAfter(w, a).state)
  {
  }

  lemma RowsShape(w: World, a: Action)
    requires Inv(w) && Enabled(w, a) && !a.StartAttempt?
    ensures SameButLast(w.plan, RowsAfter(w, a))
    ensures Done(RowsAfter(w, a)) == if a.CompleteAcceptance? then Done(w.plan) + 1 else Done(w.plan)
    ensures forall i | 0 <= i < Done(w.plan) :: RowsAfter(w, a).steps[i] == w.plan.steps[i]
  {
    if RewritesLast(a) {
      LiveShape(w, a);
    } else if a.CompleteAcceptance? {
      RecordedShape(w.plan, a.commit);
    } else {
      OnlyState(w, a);
      SameRows(w.plan, RowsAfter(w, a).state);
    }
  }

  lemma LiveStep(w: World, a: Action)
    requires Inv(w) && Enabled(w, a) && RewritesLast(a)
    ensures PlanOk(RowsAfter(w, a))
  {
    var p := w.plan;
    UpdateKeepsPlan(p, LiveAfter(p, a));
    StateKeepsPlan(WithAttempt(p, Done(p), LastIndex(p), LiveAfter(p, a)), RowsAfter(w, a).state);
  }

  /** The rows keep their own invariant. */
  lemma RowsStep(w: World, a: Action)
    requires Inv(w) && Enabled(w, a)
    ensures PlanOk(RowsAfter(w, a))
  {
    if RewritesLast(a) {
      LiveStep(w, a);
    } else if a.StartAttempt? {
      StartStep(w, a.complexity);
    } else if a.CompleteAcceptance? {
      RecordKeepsPlan(w.plan, a.commit);
    } else {
      OnlyState(w, a);
      StateKeepsPlan(w.plan, RowsAfter(w, a).state);
    }
  }

  lemma StartShape(w: World, a: Action)
    requires Inv(w) && Enabled(w, a) && a.StartAttempt?
    ensures
      var p, q := w.plan, RowsAfter(w, a);
      var n := Done(p);
      var l := |p.steps[n].attempts|;
      && Done(q) == n && |q.steps| == |p.steps| && q.base == p.base && q.planId == p.planId && q.manifest == p.manifest
      && (forall i | 0 <= i < |p.steps| :: q.steps[i].id == p.steps[i].id && (i != n ==> q.steps[i] == p.steps[i]))
      && (forall i: nat, j: nat :: IsAttempt(q, i, j) <==> IsAttempt(p, i, j) || (i == n && j == l))
      && (forall i: nat, j: nat | IsAttempt(p, i, j) :: At(q, i, j) == At(p, i, j))
      && IsAttempt(q, n, l) && At(q, n, l).id == w.nonce && At(q, n, l).state.Running?
  {
    var p, q := w.plan, RowsAfter(w, a);
    DoneUnique(q, Done(p));
  }

  lemma IdsStep(w: World, a: Action)
    requires Inv(w) && Enabled(w, a)
    ensures IdsOk(RowsAfter(w, a), Apply(w, a).nonce)
  {
    if a.StartAttempt? {
      StartShape(w, a);
    } else {
      RowsShape(w, a);
      var p, q := w.plan, RowsAfter(w, a);
      assert forall i: nat, j: nat :: IsAttempt(q, i, j) <==> IsAttempt(p, i, j);
    }
  }

  /** The recorded head, or the base before there is one, is a commit. */
  lemma TipInGraph(w: World)
    requires Inv(w)
    ensures w.plan.Tip() in w.git.commits && w.plan.Tip() < w.nonce
  {
    var n := Done(w.plan);
    if n > 0 {
      assert RecordedOk(w.plan, w.git, n - 1);
    }
  }

  /** History only grows. */
  ghost predicate Grown(g: Git, h: Git) {
    && g.moves <= h.moves
    && (forall c | c in g.commits :: c in h.commits && h.commits[c] == g.commits[c])
    && g.misreads <= h.misreads
  }

  lemma CommitAdded(g: Git, n: nat, made: Commit)
    requires GitOk(g, n)
    requires MayAppear(g, n, made)
    ensures GitOk(g.(commits := g.commits[n := made]), n + 1) && Grown(g, g.(commits := g.commits[n := made]))
  {
    var more := g.commits[n := made];
    forall d | d in more ensures CommitOk(more, d) {
      if d != n {
        assert CommitOk(g.commits, d);
      }
    }
  }

  lemma BranchMoved(g: Git, n: nat, m: RefMove)
    requires GitOk(g, n) && (m.Target().Some? ==> m.Target().value in g.commits)
    ensures GitOk(Moved(g, m), n) && Grown(g, Moved(g, m))
  {
  }

  /** The commit made for the live attempt is on the plan's tip. */
  lemma MadeOnTip(w: World)
    requires Inv(w) && Enabled(w, CreateCommit)
    ensures MadeFor(w.plan, Done(w.plan), LastIndex(w.plan)).Parents() == {w.plan.Tip()} && w.plan.Tip() in w.git.commits
  {
    TipIsParent(w.plan);
    TipInGraph(w);
    assert AttemptOk(w.plan, Done(w.plan), LastIndex(w.plan));
  }

  lemma CommitStep(w: World)
    requires Inv(w) && Enabled(w, CreateCommit)
    ensures GitOk(GitAfter(w, CreateCommit), w.nonce + 1) && Grown(w.git, GitAfter(w, CreateCommit))
  {
    MadeOnTip(w);
    CommitAdded(w.git, w.nonce, MadeFor(w.plan, Done(w.plan), LastIndex(w.plan)));
  }

  lemma OtherCommitStep(w: World, made: Commit)
    requires GitOk(w.git, w.nonce) && Enabled(w, OtherCommit(made))
    ensures GitOk(GitAfter(w, OtherCommit(made)), w.nonce + 1) && Grown(w.git, GitAfter(w, OtherCommit(made)))
  {
    CommitAdded(w.git, w.nonce, made);
  }

  lemma MoveStep(w: World, tip: CommitId)
    requires GitOk(w.git, w.nonce) && Enabled(w, MoveRef(tip))
    ensures GitOk(GitAfter(w, MoveRef(tip)), w.nonce) && Grown(w.git, GitAfter(w, MoveRef(tip)))
  {
    BranchMoved(w.git, w.nonce, ByHarness(tip));
  }

  lemma OtherMoveStep(w: World, to: Option<CommitId>)
    requires GitOk(w.git, w.nonce) && Enabled(w, OtherMove(to))
    ensures GitOk(GitAfter(w, OtherMove(to)), w.nonce) && Grown(w.git, GitAfter(w, OtherMove(to)))
  {
    BranchMoved(w.git, w.nonce, ByOther(to));
  }

  lemma GitRests(g: Git, h: Git, n: nat, m: nat)
    requires GitOk(g, n) && h == g.(misreads := h.misreads) && g.misreads <= h.misreads && n <= m
    ensures GitOk(h, m) && Grown(g, h)
  {
  }

  /** Every other write leaves the commits and the branch alone. */
  lemma RestStep(w: World, a: Action)
    requires GitOk(w.git, w.nonce) && Enabled(w, a) && !a.CreateCommit? && !a.OtherCommit? && !a.MoveRef? && !a.OtherMove?
    ensures GitOk(GitAfter(w, a), Apply(w, a).nonce) && Grown(w.git, GitAfter(w, a))
  {
    GitRests(w.git, GitAfter(w, a), w.nonce, Apply(w, a).nonce);
  }

  lemma GitStep(w: World, a: Action)
    requires Inv(w) && Enabled(w, a)
    ensures GitOk(GitAfter(w, a), Apply(w, a).nonce) && Grown(w.git, GitAfter(w, a))
  {
    match a {
      case CreateCommit => CommitStep(w);
      case OtherCommit(made) => OtherCommitStep(w, made);
      case MoveRef(tip) => MoveStep(w, tip);
      case OtherMove(to) => OtherMoveStep(w, to);
      case _ => RestStep(w, a);
    }
  }

  /** No write touches a step that is done. */
  lemma DoneStays(w: World, a: Action, i: nat)
    requires Inv(w) && Enabled(w, a) && i < Done(w.plan)
    ensures
      var p, q := w.plan, RowsAfter(w, a);
      && i < |q.steps| == |p.steps| && q.steps[i] == p.steps[i] && ParentOf(q, i) == ParentOf(p, i)
      && q.planId == p.planId && q.manifest == p.manifest
  {
    if a.StartAttempt? {
      StartShape(w, a);
    } else {
      RowsShape(w, a);
    }
  }

  lemma RecordedGrows(p: PlanRecord, q: PlanRecord, g: Git, h: Git, i: nat)
    requires i < |p.steps| == |q.steps| && RecordedOk(p, g, i) && Grown(g, h)
    requires q.steps[i] == p.steps[i] && ParentOf(q, i) == ParentOf(p, i) && q.planId == p.planId && q.manifest == p.manifest
    ensures RecordedOk(q, h, i)
  {
  }

  /** A recorded step stays recorded. */
  lemma RecordedStays(w: World, a: Action, i: nat)
    requires Inv(w) && Enabled(w, a) && i < Done(w.plan)
    ensures i < |RowsAfter(w, a).steps| && RecordedOk(RowsAfter(w, a), GitAfter(w, a), i)
  {
    GitStep(w, a);
    DoneStays(w, a, i);
    assert RecordedOk(w.plan, w.git, i);
    RecordedGrows(w.plan, RowsAfter(w, a), w.git, GitAfter(w, a), i);
  }

  /** The step that is recorded now carries what it should. */
  lemma RecordsStep(w: World, c: CommitId)
    requires Inv(w) && Enabled(w, CompleteAcceptance(c))
    ensures Done(w.plan) < |RowsAfter(w, CompleteAcceptance(c)).steps|
    ensures RecordedOk(RowsAfter(w, CompleteAcceptance(c)), w.git, Done(w.plan))
  {
    RecordedShape(w.plan, c);
    TipIsParent(w.plan);
    assert AttemptOk(w.plan, Done(w.plan), LastIndex(w.plan));
  }

  lemma DoneAfter(w: World, a: Action)
    requires Inv(w) && Enabled(w, a)
    ensures Done(RowsAfter(w, a)) == if a.CompleteAcceptance? then Done(w.plan) + 1 else Done(w.plan)
    ensures RowsAfter(w, a).base == w.plan.base
  {
    if a.StartAttempt? {
      StartShape(w, a);
    } else {
      RowsShape(w, a);
    }
  }

  lemma LinkStep(w: World, a: Action)
    requires Inv(w) && Enabled(w, a)
    ensures LinkOk(RowsAfter(w, a), GitAfter(w, a))
  {
    DoneAfter(w, a);
    GitStep(w, a);
    forall i: nat | i < Done(RowsAfter(w, a)) ensures RecordedOk(RowsAfter(w, a), GitAfter(w, a), i) {
      if i < Done(w.plan) {
        RecordedStays(w, a, i);
      } else {
        RecordsStep(w, a.commit);
      }
    }
  }

  // ---------------------------------------------------------------- who moved the branch

  /** A commit made for attempt (i, j) mentions no other attempt's key. */
  lemma OwnKeyOnly(p: PlanRecord, nonce: nat, i: nat, j: nat, k: nat, l: nat)
    requires IdsOk(p, nonce) && IsAttempt(p, i, j) && IsAttempt(p, k, l) && (i != k || j != l)
    ensures KeyOf(p, k, l) !in MadeFor(p, i, j).text
  {
  }

  lemma NoMoveStep(w: World, a: Action, key: Key)
    requires Inv(w) && Enabled(w, a) && NoMove(w.git, key)
    requires a.MoveRef? ==> key !in w.git.commits[a.tip].keys
    ensures NoMove(GitAfter(w, a), key)
  {
    GitStep(w, a);
    var g, h := w.git, GitAfter(w, a);
    forall k | 0 <= k < |h.moves| && h.moves[k].ByHarness?
      ensures h.moves[k].tip in h.commits ==> key !in h.commits[h.moves[k].tip].keys
    {
      if k < |g.moves| {
        assert h.moves[k] == g.moves[k];
        assert g.moves[k].Target().value in g.commits;
      }
    }
  }

  /** A key whose attempt is not issued yet is on no commit. */
  lemma FutureKeyUnmoved(w: World, key: Key)
    requires Inv(w) && key.attempt >= w.nonce
    ensures NoMove(w.git, key)
  {
    forall k | 0 <= k < |w.git.moves| && w.git.moves[k].ByHarness? && w.git.moves[k].tip in w.git.commits
      ensures key !in w.git.commits[w.git.moves[k].tip].keys
    {
      assert CommitOk(w.git.commits, w.git.moves[k].tip);
    }
  }

  lemma NeverMovedStep(w: World, a: Action)
    requires Inv(w) && Enabled(w, a)
    ensures NeverMoved(RowsAfter(w, a), GitAfter(w, a))
  {
    var p, q := w.plan, RowsAfter(w, a);
    forall i: nat, j: nat | IsAttempt(q, i, j) && (At(q, i, j).state.Running? || At(q, i, j).state.Failed?)
      ensures NoMove(GitAfter(w, a), KeyOf(q, i, j))
    {
      if a.StartAttempt? {
        StartShape(w, a);
        if !IsAttempt(p, i, j) {
          FutureKeyUnmoved(w, KeyOf(q, i, j));
        }
      } else {
        RowsShape(w, a);
        assert IsAttempt(p, i, j);
      }
      if IsAttempt(p, i, j) {
        assert KeyOf(q, i, j) == KeyOf(p, i, j);
        if a.MoveRef? && (i != Done(p) || j != LastIndex(p)) {
          OwnKeyOnly(p, w.nonce, Done(p), LastIndex(p), i, j);
        }
      }
      NoMoveStep(w, a, KeyOf(q, i, j));
    }
  }

  // ---------------------------------------------------------------- the undisturbed ledger

  /** Nothing reachable from the recorded history mentions the live attempt's key. */
  lemma {:induction false} HistoryHasNoKey(w: World, i: nat, c: CommitId)
    requires Inv(w) && Undisturbed(w.git) && HasLast(w.plan) && i <= Done(w.plan)
    requires ParentOf(w.plan, i) in w.git.commits && Reaches(w.git.commits, ParentOf(w.plan, i), c)
    ensures c in w.git.commits && KeyOf(w.plan, Done(w.plan), LastIndex(w.plan)) !in w.git.commits[c].text
  {
    var p, g := w.plan, w.git;
    var key := KeyOf(p, Done(p), LastIndex(p));
    ReachesOlder(g.commits, ParentOf(p, i), c);
    assert CommitOk(g.commits, c);
    if i == 0 {
      assert p.base < Last(p).id;
    } else {
      assert RecordedOk(p, g, i - 1) && MoveOk(p, g, i - 1);
      OwnKeyOnly(p, w.nonce, i - 1, |p.steps[i - 1].attempts| - 1, Done(p), LastIndex(p));
      if c != ParentOf(p, i) {
        assert g.commits[ParentOf(p, i)].parent == Some(ParentOf(p, i - 1));
        assert CommitOk(g.commits, ParentOf(p, i));
        HistoryHasNoKey(w, i - 1, c);
      }
    }
  }

  /** Behind an unrecorded tip there is only history. */
  lemma OnlyTheTipItself(w: World, c: CommitId)
    requires Inv(w) && Undisturbed(w.git) && |w.git.moves| == Done(w.plan) + 1 && HasLast(w.plan)
    requires w.git.moves[Done(w.plan)].tip in w.git.commits && Reaches(w.git.commits, w.git.moves[Done(w.plan)].tip, c)
    requires c in w.git.commits && KeyOf(w.plan, Done(w.plan), LastIndex(w.plan)) in w.git.commits[c].text
    ensures c == w.git.moves[Done(w.plan)].tip
  {
    var p, g, t := w.plan, w.git, w.git.moves[Done(w.plan)].tip;
    if c != t {
      assert MoveOk(p, g, Done(p));
      TipIsParent(p);
      assert AttemptOk(p, Done(p), LastIndex(p));
      assert g.commits[t].Parents() == {p.Tip()};
      TipInGraph(w);
      HistoryHasNoKey(w, Done(p), c);
    }
  }

  /** A commit with the live attempt's key is behind no recorded tip. */
  lemma NotBehindRecorded(w: World, k: nat, c: CommitId)
    requires Inv(w) && Undisturbed(w.git) && HasLast(w.plan) && k < |w.git.moves| && w.git.moves[k].ByHarness?
    requires w.git.moves[k].tip in w.git.commits && Reaches(w.git.commits, w.git.moves[k].tip, c)
    requires c in w.git.commits && KeyOf(w.plan, Done(w.plan), LastIndex(w.plan)) in w.git.commits[c].text
    ensures k == Done(w.plan)
  {
    assert Ledger(w.plan, w.git);
    if k < Done(w.plan) {
      assert ParentOf(w.plan, k + 1) == w.git.moves[k].tip;
      HistoryHasNoKey(w, k + 1, c);
    }
  }

  /** A commit made for the live attempt is younger than the plan's tip. */
  lemma NotAtRest(w: World, c: CommitId)
    requires Inv(w) && HasLast(w.plan) && c in w.git.commits && w.git.commits[c] == MadeFor(w.plan, Done(w.plan), LastIndex(w.plan))
    ensures w.plan.Tip() < c
  {
    TipIsParent(w.plan);
    assert AttemptOk(w.plan, Done(w.plan), LastIndex(w.plan));
    assert CommitOk(w.git.commits, c);
    assert w.plan.Tip() in w.git.commits[c].Parents();
  }

  /** With an acceptance not yet recorded, the branch is at its commit, which carries its key. */
  lemma UnrecordedTip(w: World)
    requires Inv(w) && Undisturbed(w.git) && |w.git.moves| == Done(w.plan) + 1
    ensures HasLast(w.plan) && Last(w.plan).state.Accepting? && MoveOk(w.plan, w.git, Done(w.plan))
    ensures w.git.branch == Some(w.git.moves[Done(w.plan)].tip) && !AtRest(w)
    ensures w.git.branch.value in w.git.commits && w.git.commits[w.git.branch.value] == MadeFor(w.plan, Done(w.plan), LastIndex(w.plan))
    ensures !NoMove(w.git, KeyOf(w.plan, Done(w.plan), LastIndex(w.plan)))
    ensures AnyAccepting(w.plan)
  {
    var p, g, n := w.plan, w.git, Done(w.plan);
    var c := g.moves[n].tip;
    assert MoveOk(p, g, n);
    NotAtRest(w, c);
    assert KeyOf(p, n, LastIndex(p)) in g.commits[c].keys;
    assert IsAttempt(p, n, LastIndex(p)) && At(p, n, LastIndex(p)).state.Accepting?;
  }

  lemma HeldByHarness(g: Git, k: nat, c: CommitId)
    requires GraphOk(g.commits) && Undisturbed(g) && Held(g, k, c)
    ensures k < |g.moves| && g.moves[k].ByHarness? && g.moves[k].tip in g.commits && Reaches(g.commits, g.moves[k].tip, c)
  {
    assert g.moves[k].ByHarness?;
  }

  /** Undisturbed, the only commit the branch ever held with the live attempt's key is the unrecorded tip. */
  lemma KeyOnlyAtTip(w: World, c: CommitId)
    requires Inv(w) && Undisturbed(w.git) && HasLast(w.plan)
    requires WasOnBranch(w.git, c) && c in w.git.commits && KeyOf(w.plan, Done(w.plan), LastIndex(w.plan)) in w.git.commits[c].text
    ensures |w.git.moves| == Done(w.plan) + 1 && w.git.moves[Done(w.plan)] == ByHarness(c) && w.git.branch == Some(c)
  {
    var k: nat :| Held(w.git, k, c);
    HeldByHarness(w.git, k, c);
    NotBehindRecorded(w, k, c);
    OnlyTheTipItself(w, c);
    UnrecordedTip(w);
  }

  lemma MoveOkKept(w: World, a: Action, i: nat)
    requires Inv(w) && Enabled(w, a) && i < |w.plan.steps| && w.plan.steps[i].attempts != []
    requires i < |w.git.moves| && w.git.moves[i].ByHarness? && MoveOk(w.plan, w.git, i)
    requires RowsAfter(w, a).planId == w.plan.planId && RowsAfter(w, a).manifest == w.plan.manifest
    requires |RowsAfter(w, a).steps| == |w.plan.steps|
    requires RowsAfter(w, a).steps[i].id == w.plan.steps[i].id
    requires |RowsAfter(w, a).steps[i].attempts| == |w.plan.steps[i].attempts|
    requires
      var j := |w.plan.steps[i].attempts| - 1;
      var b, c := At(RowsAfter(w, a), i, j), At(w.plan, i, j);
      b.id == c.id && b.parent == c.parent && b.candidate == c.candidate
    ensures GitAfter(w, a).moves[..|w.git.moves|] == w.git.moves
    ensures MoveOk(RowsAfter(w, a), GitAfter(w, a), i)
  {
    GitStep(w, a);
    assert GitAfter(w, a).moves[i] == w.git.moves[i];
  }

  /** The recorded part of the ledger survives every write. */
  lemma LedgerPrefix(w: World, a: Action, i: nat)
    requires Inv(w) && Enabled(w, a) && Undisturbed(w.git) && i < Done(w.plan)
    ensures
      var q, h := RowsAfter(w, a), GitAfter(w, a);
      && i < |q.steps| && i < |h.moves| && h.moves[i].ByHarness?
      && q.steps[i].attempts != [] && MoveOk(q, h, i) && q.steps[i].commit == Some(h.moves[i].tip)
  {
    GitStep(w, a);
    if a.StartAttempt? {
      StartShape(w, a);
    } else {
      RowsShape(w, a);
    }
    assert GitAfter(w, a).moves[i] == w.git.moves[i];
    MoveOkKept(w, a, i);
  }

  lemma OtherMoveDisturbs(w: World, a: Action)
    requires Enabled(w, a) && a.OtherMove?
    ensures !Undisturbed(GitAfter(w, a))
  {
    assert GitAfter(w, a).moves[|w.git.moves|].ByOther?;
  }

  lemma UndisturbedBefore(w: World, a: Action)
    requires Inv(w) && Enabled(w, a) && Undisturbed(GitAfter(w, a))
    ensures Undisturbed(w.git) && !a.OtherMove?
  {
    GitStep(w, a);
    forall k | 0 <= k < |w.git.moves| ensures w.git.moves[k].ByHarness? {
      assert GitAfter(w, a).moves[k] == w.git.moves[k];
    }
    if a.OtherMove? {
      OtherMoveDisturbs(w, a);
    }
  }

  /** Then nothing can happen to the step except recording that commit. */
  lemma LedgerAhead(w: World, a: Action)
    requires Inv(w) && Enabled(w, a) && Undisturbed(w.git) && |w.git.moves| == Done(w.plan) + 1
    ensures !a.StartAttempt? && !a.FailAttempt? && !a.MoveRef? && !a.SetCandidate? && !a.SetAccepting?
    ensures a.CompleteAcceptance? ==> w.git.moves[Done(w.plan)] == ByHarness(a.commit)
  {
    UnrecordedTip(w);
    if a.CompleteAcceptance? {
      KeyOnlyAtTip(w, a.commit);
    }
  }

  /** The move history after a write, from the first step that is pending then. */
  ghost predicate TailOk(q: PlanRecord, h: Git) {
    var m := Done(q);
    && m <= |h.moves| <= m + 1
    && (|h.moves| == m + 1 ==> h.moves[m].ByHarness? && HasLast(q) && Last(q).state.Accepting? && MoveOk(q, h, m))
  }

  /** Recording moves the tail on by the step recorded. */
  ghost predicate RecordsTail(q: PlanRecord, h: Git, n: nat, c: CommitId) {
    && Done(q) == n + 1 == |h.moves| && h.moves[n] == ByHarness(c)
    && n < |q.steps| && q.steps[n].attempts != [] && MoveOk(q, h, n)
  }

  /** With no unrecorded tip, only a move by the harness can make one. */
  lemma TailLevel(w: World, a: Action)
    requires Inv(w) && Enabled(w, a) && Undisturbed(w.git) && !a.OtherMove? && |w.git.moves| == Done(w.plan)
    ensures !a.CompleteAcceptance? && TailOk(RowsAfter(w, a), GitAfter(w, a))
  {
    if a.CompleteAcceptance? {
      KeyOnlyAtTip(w, a.commit);
    } else if a.StartAttempt? {
      StartShape(w, a);
    } else {
      RowsShape(w, a);
    }
  }

  lemma TailStays(w: World, a: Action)
    requires Inv(w) && Enabled(w, a) && Undisturbed(w.git) && !a.OtherMove? && |w.git.moves| == Done(w.plan) + 1
    requires !a.CompleteAcceptance?
    ensures TailOk(RowsAfter(w, a), GitAfter(w, a))
  {
    LedgerAhead(w, a);
    RowsShape(w, a);
    UnrecordedTip(w);
    MoveOkKept(w, a, Done(w.plan));
    assert GitAfter(w, a).moves == w.git.moves;
  }

  /** Recording does not change which commit the attempt's move was to install. */
  lemma RecordedMade(p: PlanRecord, c: CommitId)
    requires PlanOk(p) && HasLast(p) && Last(p).state.Accepting?
    ensures
      var n, l := Done(p), LastIndex(p);
      var q := Recorded(p, n, l, c);
      && Done(q) == n + 1 && n < |q.steps| && |q.steps[n].attempts| == l + 1
      && MadeFor(q, n, l) == MadeFor(p, n, l)
  {
    RecordKeepsPlan(p, c);
  }

  lemma TailRecords(w: World, c: CommitId)
    requires Inv(w) && Enabled(w, CompleteAcceptance(c)) && Undisturbed(w.git) && |w.git.moves| == Done(w.plan) + 1
    ensures RecordsTail(RowsAfter(w, CompleteAcceptance(c)), w.git, Done(w.plan), c)
  {
    assert w.git.moves[Done(w.plan)] == ByHarness(c) by {
      LedgerAhead(w, CompleteAcceptance(c));
    }
    assert HasLast(w.plan) && MoveOk(w.plan, w.git, Done(w.plan));
    RecordedMade(w.plan, c);
  }

  lemma LedgerTail(w: World, a: Action)
    requires Inv(w) && Enabled(w, a) && Undisturbed(w.git) && !a.OtherMove?
    ensures !a.CompleteAcceptance? ==> TailOk(RowsAfter(w, a), GitAfter(w, a))
    ensures a.CompleteAcceptance? ==> RecordsTail(RowsAfter(w, a), GitAfter(w, a), Done(w.plan), a.commit)
  {
    if |w.git.moves| == Done(w.plan) + 1 {
      if a.CompleteAcceptance? {
        TailRecords(w, a.commit);
      } else {
        TailStays(w, a);
      }
    } else {
      TailLevel(w, a);
    }
  }

  lemma LedgerStep(w: World, a: Action)
    requires Inv(w) && Enabled(w, a) && Undisturbed(GitAfter(w, a))
    ensures Ledger(RowsAfter(w, a), GitAfter(w, a))
  {
    UndisturbedBefore(w, a);
    LedgerTail(w, a);
    var q, h := RowsAfter(w, a), GitAfter(w, a);
    forall i: nat | i < Done(q)
      ensures q.steps[i].attempts != [] && MoveOk(q, h, i) && q.steps[i].commit == Some(h.moves[i].tip)
    {
      if i < Done(w.plan) {
        LedgerPrefix(w, a, i);
      } else if a.StartAttempt? {
        StartShape(w, a);
      } else {
        RowsShape(w, a);
      }
    }
  }

  // ---------------------------------------------------------------- reports and snapshots

  /** Every entry of a report after a write was there before, or is a row of the plan as it reads. */
  lemma EntryBefore(w: World, a: Action, k: nat, i: nat, j: nat)
    requires Inv(w) && Enabled(w, a)
    requires k < |Apply(w, a).reports| && IsAttempt(Apply(w, a).reports[k].rows, i, j)
    ensures
      var e := At(Apply(w, a).reports[k].rows, i, j);
      if k < |w.reports| then IsAttempt(w.reports[k].rows, i, j) && At(w.reports[k].rows, i, j) == e && Lists(w.reports[k], e.id)
      else a.WriteReport? && IsAttempt(w.plan, i, j) && At(w.plan, i, j) == e
    ensures At(Apply(w, a).reports[k].rows, i, j).id < w.nonce
  {
    if k < |w.reports| {
      assert Apply(w, a).reports[k] == w.reports[k];
    }
  }

  /** An attempt after a write is a new one, or the same one, and failed if it had failed. */
  lemma AttemptBefore(w: World, a: Action, x: nat, y: nat)
    requires Inv(w) && Enabled(w, a) && IsAttempt(RowsAfter(w, a), x, y)
    ensures
      var q := RowsAfter(w, a);
      if IsAttempt(w.plan, x, y) then
        && At(q, x, y).id == At(w.plan, x, y).id
        && (At(w.plan, x, y).state.Failed? ==> At(q, x, y).state.Failed?)
        && (At(q, x, y).state.Running? ==> At(w.plan, x, y).state.Running?)
        && (At(q, x, y).state.Failed? && !At(w.plan, x, y).state.Failed? ==>
              a.FailAttempt? && HasLast(w.plan) && At(q, x, y).id == Last(w.plan).id)
      else a.StartAttempt? && At(q, x, y).id == w.nonce
  {
    if a.StartAttempt? {
      StartShape(w, a);
    } else {
      RowsShape(w, a);
      assert IsAttempt(w.plan, x, y);
    }
  }

  lemma FailedStaysStep(w: World, a: Action, e: AttemptRecord)
    requires Inv(w) && Enabled(w, a) && e.id < w.nonce && FailedStays(w.plan, e)
    ensures FailedStays(RowsAfter(w, a), e)
  {
    var q := RowsAfter(w, a);
    forall x: nat, y: nat | IsAttempt(q, x, y) && At(q, x, y).id == e.id && e.state.Failed?
      ensures At(q, x, y).state.Failed?
    {
      AttemptBefore(w, a, x, y);
    }
  }

  lemma EntryOkStep(w: World, a: Action, e: AttemptRecord)
    requires Inv(w) && Enabled(w, a) && e.id < w.nonce && EntryOk(w.plan, e)
    requires a.FailAttempt? ==> Last(w.plan).id != e.id
    ensures EntryOk(RowsAfter(w, a), e)
  {
    var q := RowsAfter(w, a);
    forall x: nat, y: nat | IsAttempt(q, x, y) && At(q, x, y).id == e.id
      ensures !At(q, x, y).state.Running? && (At(q, x, y).state.Failed? ==> e.state.Failed?)
    {
      AttemptBefore(w, a, x, y);
    }
  }

  /** A row of the plan as it reads is a fair entry: it is itself, and in calm it is not running when it is published. */
  lemma OwnEntry(p: PlanRecord, nonce: nat, i: nat, j: nat)
    requires IdsOk(p, nonce) && IsAttempt(p, i, j)
    ensures FailedStays(p, At(p, i, j))
    ensures !At(p, i, j).state.Running? ==> EntryOk(p, At(p, i, j))
  {
  }

  lemma CalmBefore(w: World, a: Action)
    requires Inv(w) && Enabled(w, a) && Calm(GitAfter(w, a))
    ensures Calm(w.git)
  {
    UndisturbedBefore(w, a);
    GitStep(w, a);
  }

  lemma ReportEntryStep(w: World, a: Action, k: nat, i: nat, j: nat)
    requires Inv(w) && Enabled(w, a)
    requires k < |Apply(w, a).reports| && IsAttempt(Apply(w, a).reports[k].rows, i, j)
    ensures FailedStays(RowsAfter(w, a), At(Apply(w, a).reports[k].rows, i, j))
    ensures Calm(GitAfter(w, a)) ==> EntryOk(RowsAfter(w, a), At(Apply(w, a).reports[k].rows, i, j))
  {
    var e := At(Apply(w, a).reports[k].rows, i, j);
    EntryBefore(w, a, k, i, j);
    if k == |w.reports| {
      OwnEntry(w.plan, w.nonce, i, j);
    } else {
      assert FailedStays(w.plan, e);
    }
    FailedStaysStep(w, a, e);
    if Calm(GitAfter(w, a)) {
      CalmBefore(w, a);
      EntryOkStep(w, a, e);
    }
  }

  lemma ReportsStep(w: World, a: Action)
    requires Inv(w) && Enabled(w, a)
    ensures ReportsOk(Apply(w, a))
  {
    var v := Apply(w, a);
    forall k, i: nat, j: nat | 0 <= k < |v.reports| && IsAttempt(v.reports[k].rows, i, j)
      ensures At(v.reports[k].rows, i, j).id < v.nonce
      ensures FailedStays(v.plan, At(v.reports[k].rows, i, j))
      ensures Calm(v.git) ==> EntryOk(v.plan, At(v.reports[k].rows, i, j))
    {
      EntryBefore(w, a, k, i, j);
      ReportEntryStep(w, a, k, i, j);
    }
  }

  lemma BareAfterRecording(w: World, a: Action)
    requires Inv(w) && Enabled(w, a) && a.CompleteAcceptance?
    ensures !HasLast(RowsAfter(w, a))
  {
    NextHasNoAttempts(w.plan, a.commit);
  }

  /** A fresh cycle after a write was there before it, behind the same attempt. */
  lemma FreshBefore(w: World, a: Action)
    requires Inv(w) && Enabled(w, a) && FreshCycle(RowsAfter(w, a))
    ensures !a.StartAttempt? && !a.CompleteAcceptance? && HasLast(w.plan) && Last(RowsAfter(w, a)).id == Last(w.plan).id
  {
    if a.StartAttempt? {
      StartShape(w, a);
    } else if a.CompleteAcceptance? {
      BareAfterRecording(w, a);
    } else {
      RowsShape(w, a);
    }
  }

  lemma OwnRowsList(r: Report, p: PlanRecord)
    requires HasLast(p) && r.rows.steps == p.steps
    ensures Lists(r, Last(p).id)
  {
    assert IsAttempt(r.rows, Done(p), LastIndex(p)) && At(r.rows, Done(p), LastIndex(p)).id == Last(p).id;
  }

  lemma AnnouncedStep(w: World, a: Action)
    requires Inv(w) && Enabled(w, a)
    requires RowsAfter(w, a).state.Approved? || RowsAfter(w, a).state.Running?
    ensures Announced(Apply(w, a))
  {
    if FreshCycle(RowsAfter(w, a)) {
      FreshBefore(w, a);
      if a.WriteReport? {
        OwnRowsList(a.report, w.plan);
      }
    }
  }

  // ---------------------------------------------------------------- all of it

  lemma CandidateStep(w: World, a: Action)
    requires Inv(w) && Enabled(w, a)
    ensures CandidateKept(Apply(w, a))
  {
    if a.StartAttempt? {
      StartShape(w, a);
    } else {
      RowsShape(w, a);
    }
  }

  /** A completed plan accepts no write that could make its last report wrong. */
  lemma CompletedStep(w: World, a: Action)
    requires Inv(w) && Enabled(w, a) && RowsAfter(w, a).state.Completed?
    ensures Done(RowsAfter(w, a)) == |RowsAfter(w, a).steps|
    ensures FinalReport(Apply(w, a)) && Apply(w, a).snaps == {}
  {
    RowsShape(w, a);
  }

  lemma InvStep(w: World, a: Action)
    requires Inv(w) && Enabled(w, a)
    ensures Inv(Apply(w, a))
  {
    var v := Apply(w, a);
    assert PlanOk(v.plan) by { RowsStep(w, a); }
    assert GitOk(v.git, v.nonce) by { GitStep(w, a); }
    assert IdsOk(v.plan, v.nonce) by { IdsStep(w, a); }
    assert LinkOk(v.plan, v.git) by { LinkStep(w, a); }
    assert NeverMoved(v.plan, v.git) by { NeverMovedStep(w, a); }
    assert Undisturbed(v.git) ==> Ledger(v.plan, v.git) by {
      if Undisturbed(v.git) {
        LedgerStep(w, a);
      }
    }
    assert CandidateKept(v) by { CandidateStep(w, a); }
    assert ReportsOk(v) by { ReportsStep(w, a); }
    assert v.plan.state.Approved? || v.plan.state.Running? ==> Announced(v) by {
      if v.plan.state.Approved? || v.plan.state.Running? {
        AnnouncedStep(w, a);
      }
    }
    assert v.plan.state.Completed? ==> Done(v.plan) == |v.plan.steps| && FinalReport(v) && v.snaps == {} by {
      if v.plan.state.Completed? {
        CompletedStep(w, a);
      }
    }
  }

  lemma {:induction false} InvRun(ws: seq<World>, k: nat)
    requires IsRun(ws) && Inv(ws[0]) && k < |ws|
    ensures Inv(ws[k])
  {
    if k > 0 {
      InvRun(ws, k - 1);
      var a := StepOf(ws, k);
      InvStep(ws[k - 1], a);
    }
  }

  ghost predicate SoundAt(ws: seq<World>, k: nat)
    requires k < |ws|
  {
    Inv(ws[k])
  }

  ghost predicate AllSound(ws: seq<World>) {
    forall k: nat | k < |ws| :: SoundAt(ws, k)
  }

  /** A run that begins well is good throughout. */
  lemma SoundRun(ws: seq<World>)
    requires IsRun(ws) && Inv(ws[0])
    ensures AllSound(ws)
  {
    forall k: nat | k < |ws| ensures SoundAt(ws, k) {
      InvRun(ws, k);
    }
  }

  lemma GrownTransitive(g: Git, h: Git, k: Git)
    requires Grown(g, h) && Grown(h, k)
    ensures Grown(g, k)
  {
  }

  lemma GrowsOnce(ws: seq<World>, k: nat)
    requires IsRun(ws) && 0 < k < |ws| && Inv(ws[k - 1])
    ensures Grown(ws[k - 1].git, ws[k].git)
  {
    var a := StepOf(ws, k);
    GitStep(ws[k - 1], a);
  }

  /** Along a run Git's history only grows. */
  lemma {:induction false} GitGrows(ws: seq<World>, j: nat, k: nat)
    requires IsRun(ws) && Inv(ws[0]) && j <= k < |ws|
    ensures Grown(ws[j].git, ws[k].git)
    decreases k
  {
    if j < k {
      GitGrows(ws, j, k - 1);
      InvRun(ws, k - 1);
      GrowsOnce(ws, k);
      GrownTransitive(ws[j].git, ws[k - 1].git, ws[k].git);
    }
  }
}
