/** What the protocol guarantees in every world a run can reach, cut off anywhere. */
module Safety {
  import opened Wrappers
  import opened Failure
  import opened Records
  import opened Selection
  import opened Commits
  import opened Protocol
  import opened Preservation
  import opened Sessions
  import opened Acceptance
  import opened Recovery

  // ---------------------------------------------------------------- runs and crashes

  lemma EveryCrashPoint(ws: seq<World>, k: nat)
    requires IsRun(ws) && Init(ws[0]) && k < |ws|
    ensures Inv(ws[k])
  {
    InitInv(ws[0]);
    InvRun(ws, k);
  }

  /** A process that dies after its k-th write, followed by another one, is a run again. */
  lemma RestartIsRun(dying: seq<World>, k: nat, next: seq<World>)
    requires IsRun(dying) && k < |dying| && IsRun(next) && next[0] == dying[k]
    ensures IsRun(dying[..k + 1] + next[1..])
  {
    var ws := dying[..k + 1] + next[1..];
    forall m: nat | 0 < m < |ws| ensures Follows(ws, m) {
      if m <= k {
        assert Follows(dying, m);
      } else {
        assert Follows(next, m - k);
        assert ws[m] == next[m - k] && ws[m - 1] == next[m - k - 1];
      }
    }
  }

  // ---------------------------------------------------------------- exactly once, in order

  ghost function BranchChain(w: World): seq<CommitId>
    requires GitOk(w.git, w.nonce) && w.git.branch.Some?
  {
    assert w.git.moves[|w.git.moves| - 1].Target().value in w.git.commits;
    Chain(w.git.commits, w.plan.base, w.git.branch.value)
  }

  /** The commits the plan has on its branch, oldest first. */
  ghost function OnBranch(w: World): seq<CommitId>
    requires GitOk(w.git, w.nonce)
  {
    if w.git.branch.None? then [] else BranchChain(w)
  }

  function Tips(g: Git): seq<CommitId>
    requires forall k | 0 <= k < |g.moves| :: g.moves[k].ByHarness?
  {
    seq(|g.moves|, k requires 0 <= k < |g.moves| && g.moves[k].ByHarness? => g.moves[k].tip)
  }

  /** The commit stands on the one listed before it, the first on the base. */
  predicate StandsOn(commits: map<CommitId, Commit>, base: CommitId, links: seq<CommitId>, i: nat)
    requires i < |links|
  {
    links[i] in commits && base < links[i] && commits[links[i]].parent == Some(if i == 0 then base else links[i - 1])
  }

  ghost predicate Linked(commits: map<CommitId, Commit>, base: CommitId, links: seq<CommitId>) {
    forall i: nat | i < |links| :: StandsOn(commits, base, links, i)
  }

  /** Commits that stand on one another are the way back to the base, with nothing between them. */
  lemma {:induction false} ChainOfLinks(commits: map<CommitId, Commit>, base: CommitId, links: seq<CommitId>, i: nat)
    requires GraphOk(commits) && base in commits && i < |links|
    requires Linked(commits, base, links)
    ensures links[i] in commits && Chain(commits, base, links[i]) == links[..i + 1]
  {
    assert StandsOn(commits, base, links, i) && CommitOk(commits, links[i]);
    if i > 0 {
      ChainOfLinks(commits, base, links, i - 1);
      assert links[..i + 1] == links[..i] + [links[i]];
    } else {
      assert Chain(commits, base, base) == [];
      assert links[..1] == [] + [links[0]];
    }
  }

  /** A commit that mentions the key of one of the plan's attempts is younger than the plan's base. */
  lemma YoungerThanBase(w: World, c: CommitId, i: nat, j: nat)
    requires Inv(w) && IsAttempt(w.plan, i, j) && c in w.git.commits && KeyOf(w.plan, i, j) in w.git.commits[c].text
    ensures w.plan.base < c
  {
    assert CommitOk(w.git.commits, c);
    assert w.plan.base < At(w.plan, i, j).id;
  }

  /** The harness's i-th move installed the commit made for step i, on the commit before it. */
  lemma MoveMeaning(w: World, i: nat)
    requires Inv(w) && Undisturbed(w.git) && i < |w.git.moves|
    ensures i < |w.plan.steps| && w.plan.steps[i].attempts != [] && MoveOk(w.plan, w.git, i)
    ensures StandsOn(w.git.commits, w.plan.base, Tips(w.git), i)
  {
    var p, g := w.plan, w.git;
    assert Ledger(p, g) && MoveOk(p, g, i);
    var l := |p.steps[i].attempts| - 1;
    assert AttemptOk(p, i, l);
    YoungerThanBase(w, g.moves[i].tip, i, l);
    if i > 0 {
      assert p.steps[i - 1].commit == Some(g.moves[i - 1].tip);
    }
  }

  lemma MovesStand(w: World)
    requires Inv(w) && Undisturbed(w.git)
    ensures Linked(w.git.commits, w.plan.base, Tips(w.git))
  {
    forall i: nat | i < |Tips(w.git)| ensures StandsOn(w.git.commits, w.plan.base, Tips(w.git), i) {
      MoveMeaning(w, i);
    }
  }

  lemma {:induction false} WholeChain(commits: map<CommitId, Commit>, base: CommitId, links: seq<CommitId>)
    requires GraphOk(commits) && base in commits && links != []
    requires Linked(commits, base, links)
    ensures links[|links| - 1] in commits && Chain(commits, base, links[|links| - 1]) == links
  {
    ChainOfLinks(commits, base, links, |links| - 1);
    assert links[..|links|] == links;
  }

  lemma TipsAreChain(w: World)
    requires GitOk(w.git, w.nonce) && Undisturbed(w.git) && w.git.moves != [] && w.plan.base in w.git.commits
    requires Linked(w.git.commits, w.plan.base, Tips(w.git))
    ensures OnBranch(w) == Tips(w.git)
  {
    WholeChain(w.git.commits, w.plan.base, Tips(w.git));
  }

  lemma BranchIsLedger(w: World)
    requires Inv(w) && Undisturbed(w.git)
    ensures OnBranch(w) == Tips(w.git)
  {
    if w.git.moves != [] {
      MovesStand(w);
      TipsAreChain(w);
    }
  }

  /** The i-th commit of the chain is step i's own: made for its last attempt, on top of the commit before it. */
  ghost predicate PlacedAt(w: World, chain: seq<CommitId>, i: nat)
    requires i < |chain|
  {
    && i < |w.plan.steps| && w.plan.steps[i].attempts != []
    && chain[i] in w.git.commits
    && w.git.commits[chain[i]] == MadeFor(w.plan, i, |w.plan.steps[i].attempts| - 1)
    && w.git.commits[chain[i]].parent == Some(if i == 0 then w.plan.base else chain[i - 1])
    && (i < Done(w.plan) ==> w.plan.steps[i].commit == Some(chain[i]))
  }

  ghost predicate DistinctKeys(w: World, chain: seq<CommitId>) {
    forall i: nat, j: nat | i < j < |chain| && chain[i] in w.git.commits && chain[j] in w.git.commits ::
      w.git.commits[chain[i]].keys !! w.git.commits[chain[j]].keys
  }

  lemma PlacedOnBranch(w: World, i: nat)
    requires Inv(w) && Undisturbed(w.git) && i < |w.git.moves|
    ensures PlacedAt(w, Tips(w.git), i)
  {
    MoveMeaning(w, i);
  }

  lemma PlacedApart(w: World, chain: seq<CommitId>, i: nat, j: nat)
    requires IdsOk(w.plan, w.nonce) && i < j < |chain| && PlacedAt(w, chain, i) && PlacedAt(w, chain, j)
    ensures chain[i] in w.git.commits && chain[j] in w.git.commits
    ensures w.git.commits[chain[i]].keys !! w.git.commits[chain[j]].keys
  {
    OwnKeyOnly(w.plan, w.nonce, i, |w.plan.steps[i].attempts| - 1, j, |w.plan.steps[j].attempts| - 1);
  }

  lemma TipsArePlaced(w: World)
    requires Inv(w) && Undisturbed(w.git)
    ensures forall i: nat | i < |Tips(w.git)| :: PlacedAt(w, Tips(w.git), i)
  {
    forall i: nat | i < |Tips(w.git)| ensures PlacedAt(w, Tips(w.git), i) {
      PlacedOnBranch(w, i);
    }
  }

  lemma PlacedAreDistinct(w: World, chain: seq<CommitId>)
    requires IdsOk(w.plan, w.nonce) && forall i: nat | i < |chain| :: PlacedAt(w, chain, i)
    ensures DistinctKeys(w, chain)
  {
    forall i: nat, j: nat | i < j < |chain|
      ensures chain[i] in w.git.commits && chain[j] in w.git.commits
      ensures w.git.commits[chain[i]].keys !! w.git.commits[chain[j]].keys
    {
      PlacedApart(w, chain, i, j);
    }
  }

  /**
   * Undisturbed, in every reachable world: from base to tip the branch carries exactly one commit per accepted
   * step, in step order, each on top of the one before, each with its own step trailer and its own key, built
   * from that attempt's candidate; at most the last of them is not recorded yet.
   */
  lemma ExactlyOnceLinear(w: World)
    requires Inv(w) && Undisturbed(w.git)
    ensures Done(w.plan) <= |OnBranch(w)| <= Done(w.plan) + 1
    ensures forall i: nat | i < |OnBranch(w)| :: PlacedAt(w, OnBranch(w), i)
    ensures DistinctKeys(w, OnBranch(w))
    ensures |OnBranch(w)| == Done(w.plan) + 1 ==> HasLast(w.plan) && Last(w.plan).state.Accepting?
  {
    BranchIsLedger(w);
    TipsArePlaced(w);
    PlacedAreDistinct(w, Tips(w.git));
  }

  /** What a plan has accomplished, with all the machinery forgotten. */
  datatype Accepted = Accepted(step: StepId, commit: CommitId)

  function StepAt(p: PlanRecord, i: nat): StepId {
    if i < |p.steps| then p.steps[i].id else ""
  }

  ghost function Abstract(w: World): seq<Accepted>
    requires GitOk(w.git, w.nonce)
  {
    var chain := OnBranch(w);
    seq(|chain|, i requires 0 <= i < |chain| => Accepted(StepAt(w.plan, i), chain[i]))
  }

  function TipOf(m: RefMove): CommitId {
    m.Target().GetOr(0)
  }

  function LedgerOf(p: PlanRecord, moves: seq<RefMove>): seq<Accepted> {
    seq(|moves|, i requires 0 <= i < |moves| => Accepted(StepAt(p, i), TipOf(moves[i])))
  }

  lemma AbstractIsLedger(w: World)
    requires Inv(w) && Undisturbed(w.git)
    ensures Abstract(w) == LedgerOf(w.plan, w.git.moves)
  {
    BranchIsLedger(w);
  }

  lemma LedgerExtends(p: PlanRecord, q: PlanRecord, moves: seq<RefMove>, more: seq<RefMove>)
    requires |p.steps| == |q.steps| && forall i | 0 <= i < |p.steps| :: q.steps[i].id == p.steps[i].id
    ensures LedgerOf(q, moves + more)[..|moves|] == LedgerOf(p, moves)
    ensures |more| == 1 ==> LedgerOf(q, moves + more) == LedgerOf(p, moves) + [Accepted(StepAt(p, |moves|), TipOf(more[0]))]
    ensures more == [] ==> LedgerOf(q, moves) == LedgerOf(p, moves)
  {
    assert forall i: nat | i < |p.steps| :: StepAt(q, i) == StepAt(p, i);
    assert more == [] ==> moves + more == moves;
  }

  /** No write renames a step. */
  lemma StepIdsKept(w: World, a: Action)
    requires Inv(w) && Enabled(w, a)
    ensures |RowsAfter(w, a).steps| == |w.plan.steps|
    ensures forall i | 0 <= i < |w.plan.steps| :: RowsAfter(w, a).steps[i].id == w.plan.steps[i].id
  {
    if a.StartAttempt? {
      StartShape(w, a);
    } else {
      RowsShape(w, a);
    }
  }

  /** The harness's next move installs the first pending step; every other write leaves the moves alone. */
  lemma MovesStep(w: World, a: Action)
    requires Inv(w) && Enabled(w, a) && Undisturbed(GitAfter(w, a))
    ensures Undisturbed(w.git)
    ensures GitAfter(w, a).moves == w.git.moves + if a.MoveRef? then [ByHarness(a.tip)] else []
    ensures a.MoveRef? ==> |w.git.moves| == Done(w.plan) < |w.plan.steps|
  {
    UndisturbedBefore(w, a);
    if a.MoveRef? && |w.git.moves| == Done(w.plan) + 1 {
      LedgerAhead(w, a);
    }
  }

  /**
   * Crash refinement: of all durable writes only the harness's ref update changes the abstract list, and it
   * appends exactly the first step not accepted yet. Recording, recovery, failing, pruning and reporting stutter.
   */
  lemma CrashRefinement(w: World, a: Action)
    requires Inv(w) && Enabled(w, a) && Undisturbed(GitAfter(w, a))
    ensures GitOk(Apply(w, a).git, Apply(w, a).nonce)
    ensures !a.MoveRef? ==> Abstract(Apply(w, a)) == Abstract(w)
    ensures a.MoveRef? ==>
              |Abstract(w)| == Done(w.plan) < |w.plan.steps|
              && Abstract(Apply(w, a)) == Abstract(w) + [Accepted(w.plan.steps[Done(w.plan)].id, a.tip)]
  {
    var v := Apply(w, a);
    assert Inv(v) by { InvStep(w, a); }
    MovesStep(w, a);
    StepIdsKept(w, a);
    AbstractIsLedger(w);
    AbstractIsLedger(v);
    LedgerExtends(w.plan, v.plan, w.git.moves, if a.MoveRef? then [ByHarness(a.tip)] else []);
  }

  lemma PrefixTransitive(a: seq<Accepted>, b: seq<Accepted>, c: seq<Accepted>)
    requires a <= b && b <= c
    ensures a <= c
  {
  }

  lemma LedgerGrowsOnce(ws: seq<World>, k: nat)
    requires IsRun(ws) && Inv(ws[0]) && 0 < k < |ws| && Undisturbed(ws[k].git)
    ensures Undisturbed(ws[k - 1].git) && GitOk(ws[k - 1].git, ws[k - 1].nonce) && GitOk(ws[k].git, ws[k].nonce)
    ensures Abstract(ws[k - 1]) <= Abstract(ws[k])
  {
    InvRun(ws, k - 1);
    var a := StepOf(ws, k);
    UndisturbedBefore(ws[k - 1], a);
    CrashRefinement(ws[k - 1], a);
  }

  /** The abstract list only grows along a run. */
  lemma {:induction false} LedgerGrows(ws: seq<World>, k: nat)
    requires IsRun(ws) && Inv(ws[0]) && k < |ws| && Undisturbed(ws[k].git)
    ensures Undisturbed(ws[0].git)
    ensures GitOk(ws[k].git, ws[k].nonce) && Abstract(ws[0]) <= Abstract(ws[k])
  {
    if k > 0 {
      LedgerGrowsOnce(ws, k);
      LedgerGrows(ws, k - 1);
      PrefixTransitive(Abstract(ws[0]), Abstract(ws[k - 1]), Abstract(ws[k]));
    }
  }

  // ---------------------------------------------------------------- whatever others do

  /** Every ref write by the harness goes from the recorded head, or from no branch at all, to a child of it. */
  lemma FailClosed(w: World, a: Action)
    requires Inv(w) && Enabled(w, a)
    ensures a.MoveRef? ==>
              && w.git.branch == w.plan.head
              && w.git.commits[a.tip].parent == Some(w.plan.Tip())
              && w.git.commits[a.tip].steps == {w.plan.steps[Done(w.plan)].id}
              && w.git.commits[a.tip].keys == {Key(w.plan.manifest, w.plan.planId, w.plan.steps[Done(w.plan)].id, Last(w.plan).id, w.plan.Tip())}
              && Last(w.plan).candidate.Some? && w.git.commits[a.tip].content == Last(w.plan).candidate.value
    ensures !a.MoveRef? && !a.OtherMove? ==> GitAfter(w, a).branch == w.git.branch && GitAfter(w, a).moves == w.git.moves
    ensures a.CompleteAcceptance? ==> w.git.commits[a.commit].parent == Some(w.plan.Tip())
  {
    if a.MoveRef? || a.CompleteAcceptance? {
      TipIsParent(w.plan);
      assert AttemptOk(w.plan, Done(w.plan), LastIndex(w.plan));
    }
  }

  /** The database alone: completed steps are a prefix ending at the head, and at most one attempt is live. */
  lemma DatabaseInvariant(w: World)
    requires Inv(w)
    ensures forall i: nat | i < |w.plan.steps| :: w.plan.steps[i].completed <==> i < Done(w.plan)
    ensures w.plan.head == if Done(w.plan) == 0 then None else w.plan.steps[Done(w.plan) - 1].commit
    ensures forall i: nat, j: nat | IsAttempt(w.plan, i, j) && At(w.plan, i, j).Live() ::
              i == Done(w.plan) && j + 1 == |w.plan.steps[i].attempts| && At(w.plan, i, j).parent == w.plan.Tip()
    ensures forall i: nat, j: nat | IsAttempt(w.plan, i, j) && At(w.plan, i, j).state.Accepting? ::
              At(w.plan, i, j).candidate.Some? && At(w.plan, i, j).key == Some(KeyOf(w.plan, i, j))
  {
    var p := w.plan;
    forall i: nat, j: nat | IsAttempt(p, i, j) && At(p, i, j).Live()
      ensures i == Done(p) && j + 1 == |p.steps[i].attempts| && At(p, i, j).parent == p.Tip()
    {
      LiveIsLast(p, i, j);
      TipIsParent(p);
      assert AttemptOk(p, i, j);
    }
    forall i: nat, j: nat | IsAttempt(p, i, j) && At(p, i, j).state.Accepting?
      ensures At(p, i, j).candidate.Some? && At(p, i, j).key == Some(KeyOf(p, i, j))
    {
      assert AttemptOk(p, i, j);
    }
  }

  function RecordedCommits(p: PlanRecord): seq<CommitId> {
    seq(Done(p), i => if 0 <= i < |p.steps| then p.steps[i].commit.GetOr(p.base) else p.base)
  }

  /** Each recorded commit exists, names its step, and stands on the one before it. */
  lemma RecordedStands(w: World, i: nat)
    requires Inv(w) && i < Done(w.plan)
    ensures w.plan.steps[i].commit == Some(RecordedCommits(w.plan)[i])
    ensures StandsOn(w.git.commits, w.plan.base, RecordedCommits(w.plan), i)
    ensures w.plan.steps[i].id in w.git.commits[RecordedCommits(w.plan)[i]].steps
  {
    assert RecordedOk(w.plan, w.git, i);
    YoungerThanBase(w, w.plan.steps[i].commit.value, i, |w.plan.steps[i].attempts| - 1);
  }

  /** The recorded head is the last of them, or the base when there is none. */
  lemma TipIsLastRecorded(w: World)
    requires Inv(w)
    ensures GraphOk(w.git.commits) && w.plan.base in w.git.commits
    ensures |RecordedCommits(w.plan)| == Done(w.plan)
    ensures w.plan.Tip() == if Done(w.plan) == 0 then w.plan.base else RecordedCommits(w.plan)[Done(w.plan) - 1]
  {
  }

  lemma RecordedLinks(w: World)
    requires Inv(w) && |RecordedCommits(w.plan)| == Done(w.plan)
    ensures Linked(w.git.commits, w.plan.base, RecordedCommits(w.plan))
  {
    forall i: nat | i < |RecordedCommits(w.plan)| ensures StandsOn(w.git.commits, w.plan.base, RecordedCommits(w.plan), i) {
      RecordedStands(w, i);
    }
  }

  /**
   * Whatever others did to the branch: from base to the recorded head there is exactly one commit per completed
   * step, in step order, each on top of the one before.
   */
  lemma RecordedIsLinear(w: World)
    requires Inv(w)
    ensures w.plan.Tip() in w.git.commits && Chain(w.git.commits, w.plan.base, w.plan.Tip()) == RecordedCommits(w.plan)
  {
    var links := RecordedCommits(w.plan);
    TipIsLastRecorded(w);
    RecordedLinks(w);
    if links != [] {
      WholeChain(w.git.commits, w.plan.base, links);
    }
  }

  ghost predicate SettledAs(p: PlanRecord, i: nat, j: nat, a: AttemptRecord) {
    IsAttempt(p, i, j) && At(p, i, j) == a && (a.state.Failed? || a.state.Completed?)
  }

  lemma SettledStep(w: World, step: Action, i: nat, j: nat, a: AttemptRecord)
    requires Inv(w) && Enabled(w, step) && SettledAs(w.plan, i, j, a)
    ensures SettledAs(RowsAfter(w, step), i, j, a)
  {
    if step.StartAttempt? {
      StartShape(w, step);
    } else {
      RowsShape(w, step);
    }
  }

  lemma SettledOnce(ws: seq<World>, i: nat, j: nat, a: AttemptRecord, k: nat)
    requires IsRun(ws) && Inv(ws[0]) && 0 < k < |ws| && SettledAs(ws[k - 1].plan, i, j, a)
    ensures SettledAs(ws[k].plan, i, j, a)
  {
    InvRun(ws, k - 1);
    var step := StepOf(ws, k);
    SettledStep(ws[k - 1], step, i, j, a);
  }

  /** `failed` and `completed` are final for an attempt: its row never changes again. */
  lemma {:induction false} SettledForever(ws: seq<World>, i: nat, j: nat, a: AttemptRecord, k: nat)
    requires IsRun(ws) && Inv(ws[0]) && SettledAs(ws[0].plan, i, j, a) && k < |ws|
    ensures SettledAs(ws[k].plan, i, j, a)
  {
    if k > 0 {
      SettledForever(ws, i, j, a, k - 1);
      SettledOnce(ws, i, j, a, k);
    }
  }

  // ---------------------------------------------------------------- attempt histories

  /** The words of (normal | normal stronger)*. */
  predicate Cycles(kinds: seq<AttemptKind>) {
    if kinds == [] then true
    else if kinds[0].Stronger? then false
    else Cycles(kinds[1..]) || (|kinds| > 1 && kinds[1].Stronger? && Cycles(kinds[2..]))
  }

  function Kinds(attempts: seq<AttemptRecord>): seq<AttemptKind> {
    seq(|attempts|, j requires 0 <= j < |attempts| => attempts[j].Kind())
  }

  lemma {:induction false} KindsAreCycles(attempts: seq<AttemptRecord>, k: nat)
    requires k <= |attempts|
    requires forall j: nat | j < |attempts| && attempts[j].retryOf.Some? :: j > 0 && attempts[j - 1].retryOf.None?
    requires k < |attempts| ==> attempts[k].retryOf.None?
    ensures Cycles(Kinds(attempts)[k..])
    decreases |attempts| - k
  {
    var kinds := Kinds(attempts);
    if k < |attempts| {
      assert kinds[k..][1..] == kinds[k + 1..];
      if k + 1 < |attempts| && attempts[k + 1].retryOf.Some? {
        assert kinds[k..][2..] == kinds[k + 2..];
        if k + 2 < |attempts| {
          assert attempts[k + 2].retryOf.None?;
        }
        KindsAreCycles(attempts, k + 2);
      } else {
        KindsAreCycles(attempts, k + 1);
      }
    }
  }

  /**
   * Every step's history is such a word; a stronger attempt directly follows the normal one it retries, which
   * failed retryably and on the same parent, and has no other retry; only the last attempt can be anything but failed.
   */
  lemma AttemptHistory(w: World, i: nat)
    requires Inv(w) && i < |w.plan.steps|
    ensures
      var attempts := w.plan.steps[i].attempts;
      && Cycles(Kinds(attempts))
      && (forall j: nat | j < |attempts| && attempts[j].Kind().Stronger? ::
            && j > 0 && attempts[j].retryOf == Some(j - 1)
            && attempts[j - 1].Kind().Normal? && attempts[j - 1].state.Failed? && RetryableText(attempts[j - 1].failure)
            && attempts[j - 1].parent == attempts[j].parent)
      && (forall j: nat, k: nat | j < k < |attempts| && attempts[j].retryOf.Some? :: attempts[k].retryOf != attempts[j].retryOf)
      && (forall j: nat | j + 1 < |attempts| :: attempts[j].state.Failed?)
      && (forall j: nat | 0 < j < |attempts| && attempts[j].Kind().Normal? && attempts[j - 1].Kind().Normal? ::
            !RetryableText(attempts[j - 1].failure))
  {
    var attempts := w.plan.steps[i].attempts;
    forall j: nat | j < |attempts| ensures AttemptOk(w.plan, i, j) && attempts[j] == At(w.plan, i, j) {
    }
    assert Kinds(attempts)[0..] == Kinds(attempts);
    KindsAreCycles(attempts, 0);
  }

  // ---------------------------------------------------------------- completion, retries and snapshots

  /** A stored completion is backed by everything it claims. */
  lemma CompletionIsDurable(w: World)
    requires Inv(w) && w.plan.state.Completed?
    ensures forall i: nat | i < |w.plan.steps| :: w.plan.steps[i].completed
    ensures w.plan.head.Some? && w.plan.head == w.plan.steps[|w.plan.steps| - 1].commit
    ensures w.reports != [] && w.reports[|w.reports| - 1].rows == w.plan && w.reports[|w.reports| - 1].verified == Some(true)
    ensures w.snaps == {}
  {
    assert w.plan.(state := PlanState.Completed) == w.plan;
  }

  /** The plan's own record, with nothing left in its snapshot store. */
  ghost predicate Frozen(w: World, p: PlanRecord, reports: seq<Report>) {
    w.plan == p && w.reports == reports && w.snaps == {}
  }

  lemma CompletedStepStutters(w: World, a: Action)
    requires Inv(w) && w.plan.state.Completed? && Enabled(w, a)
    ensures Frozen(Apply(w, a), w.plan, w.reports)
  {
    assert !w.plan.Active() && !w.plan.state.Running?;
  }

  lemma FrozenOnce(ws: seq<World>, k: nat)
    requires IsRun(ws) && Inv(ws[0]) && 0 < k < |ws| && ws[k - 1].plan.state.Completed?
    ensures Frozen(ws[k], ws[k - 1].plan, ws[k - 1].reports)
  {
    InvRun(ws, k - 1);
    var a := StepOf(ws, k);
    CompletedStepStutters(ws[k - 1], a);
  }

  /** After that only others, and an emptying of the empty store, can still happen: the plan's own record is frozen. */
  lemma {:induction false} CompletionIsFinal(ws: seq<World>, k: nat)
    requires IsRun(ws) && Inv(ws[0]) && ws[0].plan.state.Completed? && k < |ws|
    ensures Frozen(ws[k], ws[0].plan, ws[0].reports)
  {
    if k > 0 {
      CompletionIsFinal(ws, k - 1);
      FrozenOnce(ws, k);
    }
  }

  /** In the report, the attempt is shown, and shown as failed. */
  ghost predicate ShowsFailed(r: Report, id: AttemptId) {
    Lists(r, id) && forall i: nat, j: nat | IsAttempt(r.rows, i, j) && At(r.rows, i, j).id == id :: At(r.rows, i, j).state.Failed?
  }

  /**
   * No silent new cycle: a normal attempt follows a failed one only once the latest report names that one.
   * In calm, the report shows it as failed.
   */
  lemma NoSilentCycle(w: World, complexity: Complexity)
    requires Inv(w) && Enabled(w, StartAttempt(complexity)) && HasLast(w.plan)
    requires Chosen(w.plan, complexity).value.StartsNormal()
    ensures Last(w.plan).state.Failed? && w.reports != []
    ensures Lists(w.reports[|w.reports| - 1], Last(w.plan).id)
    ensures Calm(w.git) ==> ShowsFailed(w.reports[|w.reports| - 1], Last(w.plan).id)
  {
    NextAttemptMeaning(w.plan, complexity);
    NextAttemptMeaning(w.plan, Low);
    assert FreshCycle(w.plan);
    var r := w.reports[|w.reports| - 1];
    if Calm(w.git) {
      assert IsAttempt(w.plan, Done(w.plan), LastIndex(w.plan));
      forall i: nat, j: nat | IsAttempt(r.rows, i, j) && At(r.rows, i, j).id == Last(w.plan).id
        ensures At(r.rows, i, j).state.Failed?
      {
        assert EntryOk(w.plan, At(r.rows, i, j));
        assert At(w.plan, Done(w.plan), LastIndex(w.plan)).id == At(r.rows, i, j).id;
      }
    }
  }

  /** Unless the plan was cancelled, the snapshot recovery would read is in the store. */
  lemma CandidateSurvives(w: World, i: nat, j: nat)
    requires Inv(w) && !w.plan.state.Cancelled? && IsAttempt(w.plan, i, j) && At(w.plan, i, j).state.Accepting?
    ensures At(w.plan, i, j).candidate.Some? && At(w.plan, i, j).candidate.value in w.snaps
  {
    LiveIsLast(w.plan, i, j);
  }

  // ---------------------------------------------------------------- recovery and cancellation agree

  /** The tip carries the live attempt's key as a trailer, with its step and parent. */
  ghost predicate TipIsAcceptance(w: World)
    requires Inv(w)
  {
    BranchExists(w.git, w.nonce);
    && HasLast(w.plan) && Last(w.plan).state.Accepting? && w.git.branch.Some?
    && KeyOf(w.plan, Done(w.plan), LastIndex(w.plan)) in w.git.commits[w.git.branch.value].keys
    && Carries(w.plan, w.git, w.git.branch.value)
  }

  /** Only the live attempt can prove anything, and it does exactly when the tip is its acceptance. */
  lemma TipProves(w: World)
    requires Inv(w) && w.git.branch.Some? && w.git.branch.value in w.git.commits
    requires w.git.commits[w.git.branch.value].parent == Some(w.plan.Tip())
    ensures
      (exists i: nat, j: nat | IsAttempt(w.plan, i, j) :: Proves(w.plan, w.git.commits[w.git.branch.value], i, j))
      <==> TipIsAcceptance(w)
  {
    var p, commit := w.plan, w.git.commits[w.git.branch.value];
    assert CommitOk(w.git.commits, w.git.branch.value);
    if TipIsAcceptance(w) {
      AcceptingAttempt(p);
      assert Proves(p, commit, Done(p), LastIndex(p));
    }
    forall i: nat, j: nat | IsAttempt(p, i, j) && Proves(p, commit, i, j) ensures TipIsAcceptance(w) {
      LiveIsLast(p, i, j);
      AcceptingAttempt(p);
    }
  }

  /** Such a tip stands on the recorded head and is another commit. */
  lemma AcceptanceIsBeyond(w: World)
    requires Inv(w) && TipIsAcceptance(w)
    ensures w.git.branch != w.plan.head && w.git.branch.value in w.git.commits
    ensures w.git.commits[w.git.branch.value].parent == Some(w.plan.Tip())
    ensures FinishVerdict(w.plan, w.git) == Record(w.git.branch.value)
  {
    BranchExists(w.git, w.nonce);
    AcceptingAttempt(w.plan);
    assert CommitOk(w.git.commits, w.git.branch.value) && w.plan.Tip() in w.git.commits[w.git.branch.value].Parents();
    TipIsFound(w.git.commits, w.git.branch.value, Last(w.plan).key.value);
  }

  /**
   * Whatever others did: cancellation carries a commit beyond the recorded head exactly when the tip is the live
   * attempt's acceptance, and then it is the commit recovery would record.
   */
  lemma CancelAgreesWithRecovery(w: World)
    requires Inv(w)
    ensures w.git.branch.Some? ==> w.git.branch.value in w.git.commits
    ensures AcceptedPlanHead(w.plan, w.git) == if TipIsAcceptance(w) then w.git.branch else w.plan.head
    ensures AcceptedPlanHead(w.plan, w.git) != w.plan.head ==>
              HasLast(w.plan) && AcceptedPlanHead(w.plan, w.git).Some?
              && FinishVerdict(w.plan, w.git) == Record(AcceptedPlanHead(w.plan, w.git).value)
  {
    BranchExists(w.git, w.nonce);
    if TipIsAcceptance(w) {
      AcceptanceIsBeyond(w);
    }
    if w.git.branch.Some? && w.git.commits[w.git.branch.value].parent == Some(w.plan.Tip()) {
      TipProves(w);
    }
  }

  /** Undisturbed, cancellation carries exactly the branch, and recovery never refuses. */
  lemma UndisturbedRecovery(w: World)
    requires Inv(w) && Undisturbed(w.git)
    ensures w.git.branch.Some? ==> w.git.branch.value in w.git.commits
    ensures AcceptedPlanHead(w.plan, w.git) == w.git.branch
    ensures HasLast(w.plan) && Last(w.plan).state.Accepting? ==>
              FinishVerdict(w.plan, w.git) == if AtRest(w) then Retry else Record(w.git.branch.value)
    ensures !AnyAccepting(w.plan) ==> AtRest(w)
  {
    var p, g := w.plan, w.git;
    BranchExists(w.git, w.nonce);
    CancelAgreesWithRecovery(w);
    if HasLast(p) && Last(p).state.Accepting? {
      AcceptingAttempt(p);
      UndisturbedLookup(w, Last(p).key.value);
    }
    if !AnyAccepting(p) {
      RestWhenUndisturbed(w);
    }
    if |g.moves| == Done(p) + 1 {
      UnrecordedTip(w);
      TipCarries(w);
    } else {
      LevelRests(w);
    }
  }
}
