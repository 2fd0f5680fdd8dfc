/**
 * From a change set to the tree Git records: applying changes to a private worktree (src/git/accept.ts), the
 * export that hides some paths (src/git/export.ts), and the two places that build a change set.
 */
module CommittedTree {
  import opened Wrappers
  import opened Sorting
  import opened SourceDiff
  import opened Validate
  import opened StepChanges

  /** What Git keeps of a file: its content, the owner's execute bit, or a link target. */
  datatype GitEntry = Blob(executable: bool, content: string) | Link(target: Path)

  type Tree = map<Path, GitEntry>

  /** Bit 0o100 of a file mode. */
  predicate OwnerExecutes(mode: nat) {
    mode / 64 % 2 == 1
  }

  function Recorded(e: FileEntry): GitEntry {
    if e.kind.Symlink? then Link(e.link.GetOr("")) else Blob(OwnerExecutes(e.mode), e.content)
  }

  /** A file mode by its permission bits: the owner's three, the six below them, and what is above. */
  function Mode(above: nat, owner: nat, below: nat): nat {
    512 * above + 64 * owner + below
  }

  /** Git has of the entry its link target, or its content and the execute bit of the owner's three permission bits. */
  ghost predicate KeptAs(e: FileEntry, g: GitEntry) {
    match g
    case Link(target) => e.kind.Symlink? && target == (if e.link.Some? then e.link.value else "")
    case Blob(executable, content) =>
      && e.kind.File? && content == e.content
      && exists above: nat, owner: nat, below: nat ::
           Mode(above, owner, below) == e.mode && owner < 8 && below < 64 && (executable <==> owner in {1, 3, 5, 7})
  }

  lemma Quotient(n: nat, q: int, r: int)
    requires 0 <= r < 64 && n == 64 * q + r
    ensures n / 64 == q
  {
  }

  lemma LastBit(above: nat, owner: nat)
    requires owner < 8
    ensures (8 * above + owner) % 2 == 1 <==> owner in {1, 3, 5, 7}
  {
    assert 8 * above + owner == 2 * (4 * above) + owner;
  }

  lemma OwnerBits(above: nat, owner: nat, below: nat)
    requires owner < 8 && below < 64
    ensures OwnerExecutes(Mode(above, owner, below)) <==> owner in {1, 3, 5, 7}
  {
    Quotient(Mode(above, owner, below), 8 * above + owner, below);
    LastBit(above, owner);
  }

  lemma ModeSplits(mode: nat) returns (above: nat, owner: nat, below: nat)
    ensures Mode(above, owner, below) == mode && owner < 8 && below < 64
  {
    above := mode / 512;
    var rest := mode - 512 * above;
    owner := rest / 64;
    below := rest - 64 * owner;
  }

  lemma BlobIsKept(e: FileEntry, executable: bool)
    requires e.kind.File?
    ensures KeptAs(e, Blob(executable, e.content)) <==> (executable <==> OwnerExecutes(e.mode))
  {
    var above, owner, below := ModeSplits(e.mode);
    OwnerBits(above, owner, below);
    if KeptAs(e, Blob(executable, e.content)) {
      var a: nat, o: nat, b: nat :| Mode(a, o, b) == e.mode && o < 8 && b < 64 && (executable <==> o in {1, 3, 5, 7});
      OwnerBits(a, o, b);
    }
  }

  /** What is recorded of an entry is what Git keeps of it, and nothing else would be. */
  lemma RecordedIsKept(e: FileEntry, g: GitEntry)
    ensures KeptAs(e, g) <==> g == Recorded(e)
  {
    if e.kind.File? && g.Blob? && g.content == e.content {
      BlobIsKept(e, g.executable);
    }
  }

  function At(t: Tree, p: Path): Option<GitEntry> {
    if p in t then Some(t[p]) else None
  }

  function Effect(c: Change): Option<GitEntry> {
    if c.Deleted? then None else Some(Recorded(c.entry))
  }

  function Applied(t: Tree, c: Change): (r: Tree)
    ensures forall p :: At(r, p) == if p == c.path then Effect(c) else At(t, p)
  {
    if c.Deleted? then t - {c.path} else t[c.path := Recorded(c.entry)]
  }

  function AppliedAll(t: Tree, changes: seq<Change>): Tree {
    if changes == [] then t
    else Applied(AppliedAll(t, changes[..|changes| - 1]), changes[|changes| - 1])
  }

  lemma Remainder(above: nat, rest: nat)
    requires rest < 512
    ensures (512 * above + rest) % 512 == rest
  {
  }

  lemma PermissionsKeepExecute(mode: nat)
    ensures OwnerExecutes(mode % 512) == OwnerExecutes(mode)
  {
    var above, owner, below := ModeSplits(mode);
    Remainder(above, 64 * owner + below);
    OwnerBits(above, owner, below);
    OwnerBits(0, owner, below);
  }

  /** The private worktree, detached at the parent commit. */
  class Worktree {
    var files: Tree

    constructor (parent: Tree)
      ensures files == parent
    {
      files := parent;
    }

    /** Removes whatever is there, then writes the link or the file and its mode. */
    method ApplyChange(c: Change)
      modifies this
      ensures files == Applied(old(files), c)
    {
      files := files - {c.path};
      if c.Deleted? {
        return;
      }
      if c.entry.kind.Symlink? {
        files := files[c.path := Link(c.entry.link.GetOr(""))];
        return;
      }
      files := files[c.path := Blob(false, c.entry.content)];
      var permissions := c.entry.mode % 512;
      files := files[c.path := files[c.path].(executable := OwnerExecutes(permissions))];
      PermissionsKeepExecute(c.entry.mode);
    }

    method ApplyChanges(changes: seq<Change>)
      modifies this
      ensures files == AppliedAll(old(files), changes)
    {
      for i := 0 to |changes|
        invariant files == AppliedAll(old(files), changes[..i])
      {
        ApplyChange(changes[i]);
        assert changes[..i + 1][..i] == changes[..i];
      }
      assert changes[..|changes|] == changes;
    }
  }

  // ---------------------------------------------------------------- applying is path-wise and order-free

  lemma {:induction false} AppliedAt(t: Tree, changes: seq<Change>, p: Path)
    requires OnePerPath(changes)
    ensures forall c | c in changes && c.path == p :: At(AppliedAll(t, changes), p) == Effect(c)
    ensures (forall c | c in changes :: c.path != p) ==> At(AppliedAll(t, changes), p) == At(t, p)
  {
    if changes != [] {
      var front, last := changes[..|changes| - 1], changes[|changes| - 1];
      AppliedAt(t, front, p);
      assert forall c | c in changes :: c in front || c == last;
      assert forall c | c in front :: c.path != last.path;
      assert forall c | c in front :: c in changes;
    }
  }

  lemma SameEntries(a: Tree, b: Tree)
    requires forall p :: At(a, p) == At(b, p)
    ensures a == b
  {
    assert forall p | p in a :: At(a, p) == At(b, p) && p in b && a[p] == b[p];
    assert forall p | p in b :: At(a, p) == At(b, p) && p in a;
  }

  /** Any two orders of one change set build the same tree. */
  lemma OrderIrrelevant(t: Tree, a: seq<Change>, b: seq<Change>)
    requires OnePerPath(a) && OnePerPath(b) && forall c :: c in a <==> c in b
    ensures AppliedAll(t, a) == AppliedAll(t, b)
  {
    forall p ensures At(AppliedAll(t, a), p) == At(AppliedAll(t, b), p) {
      AppliedAt(t, a, p);
      AppliedAt(t, b, p);
      if c :| c in a && c.path == p {
        assert c in b;
      }
    }
    SameEntries(AppliedAll(t, a), AppliedAll(t, b));
  }

  // ---------------------------------------------------------------- the committed tree is the verified snapshot

  /** What `git archive` hands out: the commit's tree without the paths the harness keeps to itself. */
  ghost predicate Exported(hidden: Path -> bool, parent: Tree, source: Manifest) {
    && (forall p :: p in source <==> p in parent && !hidden(p))
    && (forall p | p in source :: Recorded(source[p]) == parent[p])
  }

  /**
   * At every path the export or the snapshot has, the commit holds exactly what was verified. Excluded paths, the
   * dispute path and paths seen by neither stay as the parent had them.
   */
  lemma CommittedIsVerified(hidden: Path -> bool, parent: Tree, source: Manifest, snapshot: Manifest,
                            changes: seq<Change>, p: Path)
    requires Exported(hidden, parent, source) && ToCommit(changes, source, snapshot)
    ensures At(AppliedAll(parent, changes), p) ==
            if Excluded(p) || p == DISPUTE_PATH || (p !in source && p !in snapshot) then At(parent, p)
            else if p in snapshot then Some(Recorded(snapshot[p])) else None
  {
    AppliedAt(parent, changes, p);
    var change := ChangeAt(source, snapshot, p);
    if change.Some? && p != DISPUTE_PATH {
      assert change.value in changes && change.value.path == p;
    } else {
      assert forall c | c in changes :: c.path != p;
      UnchangedMeansEqual(source, snapshot, p);
    }
  }

  /** Export, diff, drop the marker, apply: the whole path from a verified snapshot to the tree that is committed. */
  method CommitSnapshot(order: Order, hidden: Path -> bool, parent: Tree, source: Manifest, snapshot: Manifest)
    returns (tree: Tree)
    requires Exported(hidden, parent, source)
    ensures forall p :: At(tree, p) ==
                        if Excluded(p) || p == DISPUTE_PATH || (p !in source && p !in snapshot) then At(parent, p)
                        else if p in snapshot then Some(Recorded(snapshot[p])) else None
  {
    var changes := DiffManifests(order, source, snapshot);
    DiffIsToCommit(order, changes, source, snapshot);
    var worktree := new Worktree(parent);
    worktree.ApplyChanges(ExcludeDispute(changes));
    forall p ensures At(worktree.files, p) ==
                     if Excluded(p) || p == DISPUTE_PATH || (p !in source && p !in snapshot) then At(parent, p)
                     else if p in snapshot then Some(Recorded(snapshot[p])) else None
    {
      CommittedIsVerified(hidden, parent, source, snapshot, ExcludeDispute(changes), p);
    }
    return worktree.files;
  }

  /** The tests in the commit are exactly those RED was judged on. */
  lemma CommittedTestsAreJudged(m: Matcher, s: Scopes, hidden: Path -> bool, parent: Tree, before: Manifest,
                                between: Manifest, after: Manifest, changes: seq<Change>, p: Path)
    requires Exported(hidden, parent, before) && Composed(m, s, before, between, after, changes)
    requires Matches(m, p, s.tests) && !Excluded(p) && p != DISPUTE_PATH && (p in before || p in between)
    ensures At(AppliedAll(parent, changes), p) == if p in between then Some(Recorded(between[p])) else None
  {
    CommittedIsVerified(hidden, parent, before, after, changes, p);
    assert Get(after, p) == Get(between, p);
  }

  /** A whole tests-first step: two phase diffs, their validation, the change set, and the tree that is committed. */
  method CommitTestsFirst(m: Matcher, order: Order, s: Scopes, hidden: Path -> bool, parent: Tree, before: Manifest,
                          between: Manifest, after: Manifest)
    returns (r: Result<Tree, StepFailure>)
    requires TotalOrder(order) && Exported(hidden, parent, before)
    ensures r.Ok? ==> forall p :: At(r.value, p) ==
                                  if Excluded(p) || p == DISPUTE_PATH || (p !in before && p !in after) then At(parent, p)
                                  else if p in after then Some(Recorded(after[p])) else None
    ensures r.Ok? ==> forall p | Matches(m, p, s.tests) && !Excluded(p) && p != DISPUTE_PATH && (p in before || p in between) ::
                        At(r.value, p) == if p in between then Some(Recorded(between[p])) else None
  {
    var composed := ComposeChanges(m, order, s, before, between, after);
    if composed.Err? {
      return Err(composed.error);
    }
    var changes := composed.value;
    var worktree := new Worktree(parent);
    worktree.ApplyChanges(changes);
    forall p ensures At(worktree.files, p) ==
                     if Excluded(p) || p == DISPUTE_PATH || (p !in before && p !in after) then At(parent, p)
                     else if p in after then Some(Recorded(after[p])) else None
    {
      CommittedIsVerified(hidden, parent, before, after, changes, p);
    }
    forall p | Matches(m, p, s.tests) && !Excluded(p) && p != DISPUTE_PATH && (p in before || p in between)
      ensures At(worktree.files, p) == if p in between then Some(Recorded(between[p])) else None
    {
      CommittedTestsAreJudged(m, s, hidden, parent, before, between, after, changes, p);
    }
    return Ok(worktree.files);
  }

  // ---------------------------------------------------------------- recovery commits what the executor would have

  datatype StepType = CodeBehavior | Task

  /** The executor drops the dispute marker only for a `code_behavior` step. */
  function ExecutorChanges(step: StepType, diff: seq<Change>): seq<Change> {
    if step.CodeBehavior? then ExcludeDispute(diff) else diff
  }

  /** Recovery drops it always: it does not look at the step's type. */
  function RecoveryChanges(diff: seq<Change>): seq<Change> {
    ExcludeDispute(diff)
  }

  /** Both build the same change set exactly when the step is `code_behavior` or leaves the dispute path alone. */
  lemma SameChangesWhenUndisputed(step: StepType, diff: seq<Change>)
    ensures ExecutorChanges(step, diff) == RecoveryChanges(diff)
            <==> step.CodeBehavior? || forall c | c in diff :: c.path != DISPUTE_PATH
  {
    FilterIsIdentity(diff, OffDispute);
  }

  /** For every step the two trees agree everywhere but at the dispute path, where recovery keeps the parent's. */
  lemma RecoveredTree(step: StepType, order: Order, parent: Tree, source: Manifest, snapshot: Manifest,
                      diff: seq<Change>, p: Path)
    requires IsDiff(order, diff, source, snapshot)
    ensures p != DISPUTE_PATH
            ==> At(AppliedAll(parent, ExecutorChanges(step, diff)), p) == At(AppliedAll(parent, RecoveryChanges(diff)), p)
    ensures p == DISPUTE_PATH ==> At(AppliedAll(parent, RecoveryChanges(diff)), p) == At(parent, p)
  {
    DiffHasOnePerPath(order, diff, source, snapshot);
    ExcludeKeepsOnePerPath(diff);
    AppliedAt(parent, ExecutorChanges(step, diff), p);
    AppliedAt(parent, RecoveryChanges(diff), p);
    if p != DISPUTE_PATH {
      if c :| c in diff && c.path == p {
        assert c in ExecutorChanges(step, diff) && c in RecoveryChanges(diff);
      } else {
        assert forall c | c in ExecutorChanges(step, diff) :: c in diff;
      }
    }
  }

  /** Recovery has nothing to commit, and acceptance refuses for good, exactly when only the dispute path changed. */
  lemma StrandedWhenOnlyTheMarkerChanged(diff: seq<Change>)
    ensures RecoveryChanges(diff) == [] <==> forall c | c in diff :: c.path == DISPUTE_PATH
  {
    if forall c | c in diff :: c.path == DISPUTE_PATH {
      var r := RecoveryChanges(diff);
      if r != [] {
        assert r[0] in r;
      }
    } else {
      var c :| c in diff && c.path != DISPUTE_PATH;
      assert c in RecoveryChanges(diff);
    }
  }

  lemma MarkerIsNoManifest()
    ensures !IsDependencyManifest(DISPUTE_PATH)
  {
    var name := DISPUTE_PATH;
    assert name[|name| - 1] == 'd';
    assert BaseName(name)[|BaseName(name)| - 1] == 'd';
    assert name[..|name| - 1][|name| - 2] == 'm';
    ManifestMeans(name);
  }

  /** A task's diff that adds a regular file at the dispute path, and nothing else. */
  function MarkerDiff(content: string): seq<Change> {
    [Added(DISPUTE_PATH, FileEntry(File, 420, content, None))]
  }

  lemma MarkerIsDiff(content: string)
    ensures IsDiff((p: Path) => |p| as real, MarkerDiff(content), map[], map[DISPUTE_PATH := FileEntry(File, 420, content, None)])
  {
    DisputePathCounts();
    ExcludedMeans(DISPUTE_PATH);
  }

  lemma MarkerIsValid(content: string)
    ensures var m := Matcher((pattern: string, path: Path) => pattern == path, (path: Path, target: Path) => false);
            ValidPhase(m, MarkerDiff(content), [DISPUTE_PATH], [])
  {
    var m := Matcher((pattern: string, path: Path) => pattern == path, (path: Path, target: Path) => false);
    MarkerIsNoManifest();
    assert m.glob([DISPUTE_PATH][0], DISPUTE_PATH);
  }

  /** A `task` step that may write the dispute path gets there: its diff validates, and recovery drops all of it. */
  lemma TaskCanBeStranded(content: string)
    ensures IsDiff((p: Path) => |p| as real, MarkerDiff(content), map[], map[DISPUTE_PATH := FileEntry(File, 420, content, None)])
    ensures var m := Matcher((pattern: string, path: Path) => pattern == path, (path: Path, target: Path) => false);
            ValidPhase(m, MarkerDiff(content), [DISPUTE_PATH], [])
    ensures ExecutorChanges(Task, MarkerDiff(content)) == MarkerDiff(content) && RecoveryChanges(MarkerDiff(content)) == []
  {
    MarkerIsDiff(content);
    MarkerIsValid(content);
    StrandedWhenOnlyTheMarkerChanged(MarkerDiff(content));
  }

  // ---------------------------------------------------------------- a change set Git cannot see

  /** The snapshot has this path as the parent commit has it. */
  predicate AsCommitted(parent: Tree, snapshot: Manifest, p: Path) {
    p in snapshot && p in parent && Recorded(snapshot[p]) == parent[p]
  }

  /**
   * The commit would be empty, and Git refuses it, exactly when every path of the export or the snapshot, but for
   * the excluded ones and the dispute path, is in the snapshot as the parent commit has it.
   */
  lemma NothingRecorded(hidden: Path -> bool, parent: Tree, source: Manifest, snapshot: Manifest, changes: seq<Change>)
    requires Exported(hidden, parent, source) && ToCommit(changes, source, snapshot)
    ensures AppliedAll(parent, changes) == parent
            <==> forall p | (p in source || p in snapshot) && !Excluded(p) && p != DISPUTE_PATH :: AsCommitted(parent, snapshot, p)
  {
    forall p ensures At(AppliedAll(parent, changes), p) ==
                     if Excluded(p) || p == DISPUTE_PATH || (p !in source && p !in snapshot) then At(parent, p)
                     else if p in snapshot then Some(Recorded(snapshot[p])) else None
    {
      CommittedIsVerified(hidden, parent, source, snapshot, changes, p);
    }
    if forall p | (p in source || p in snapshot) && !Excluded(p) && p != DISPUTE_PATH :: AsCommitted(parent, snapshot, p) {
      SameEntries(AppliedAll(parent, changes), parent);
    } else {
      var p :| (p in source || p in snapshot) && !Excluded(p) && p != DISPUTE_PATH && !AsCommitted(parent, snapshot, p);
      assert At(AppliedAll(parent, changes), p) != At(parent, p);
    }
  }

  /** As an archive is read: exactly the links have a target. */
  predicate FromArchive(e: FileEntry) {
    e.link.Some? <==> e.kind.Symlink?
  }

  /**
   * The changes that record nothing: a file whose mode changed but not the owner's execute bit, and a link with
   * the same target whatever else of its archive entry changed.
   */
  lemma UnrecordedChange(before: FileEntry, after: FileEntry)
    requires FromArchive(before) && FromArchive(after)
    ensures Differs(before, after) && Recorded(before) == Recorded(after)
            <==> && before.kind == after.kind && before.link == after.link
                 && (before.mode != after.mode || before.content != after.content)
                 && (before.kind.File? ==> before.content == after.content && OwnerExecutes(before.mode) == OwnerExecutes(after.mode))
  {
  }

  /** The tree with one file, and the file system's view of it. */
  function OneFile(mode: nat, content: string): Manifest {
    map["src" := FileEntry(File, mode, content, None)]
  }

  function ModeChange(was: nat, now: nat, content: string): seq<Change> {
    [Modified("src", OneFile(now, content)["src"], OneFile(was, content)["src"])]
  }

  lemma ModeChangeIsValid(was: nat, now: nat, content: string)
    requires was != now
    ensures IsDiff((p: Path) => |p| as real, ModeChange(was, now, content), OneFile(was, content), OneFile(now, content))
    ensures var m := Matcher((pattern: string, path: Path) => pattern == path, (path: Path, target: Path) => false);
            ValidPhase(m, ModeChange(was, now, content), ["src"], [])
  {
    var m := Matcher((pattern: string, path: Path) => pattern == path, (path: Path, target: Path) => false);
    assert m.glob(["src"][0], "src");
    assert BaseName("src")[|BaseName("src")| - 1] == 'c';
    assert "src"[0] == 's';
  }

  lemma OffTheMarker(was: nat, now: nat, content: string)
    requires was != now
    ensures ToCommit(ModeChange(was, now, content), OneFile(was, content), OneFile(now, content))
  {
    var diff := ModeChange(was, now, content);
    ModeChangeIsValid(was, now, content);
    assert diff[0].path[0] != DISPUTE_PATH[0];
    FilterIsIdentity(diff, OffDispute);
    DiffIsToCommit((p: Path) => |p| as real, diff, OneFile(was, content), OneFile(now, content));
  }

  /** A validated diff that is not empty and commits nothing: one file in scope, rewritten with another mode. */
  lemma ModeChangeCommitsNothing(was: nat, now: nat, content: string)
    requires was != now && OwnerExecutes(was) == OwnerExecutes(now)
    ensures var diff := ModeChange(was, now, content);
            var parent: Tree := map["src" := Recorded(OneFile(was, content)["src"])];
            && Exported((p: Path) => false, parent, OneFile(was, content))
            && ToCommit(diff, OneFile(was, content), OneFile(now, content))
            && AppliedAll(parent, diff) == parent
  {
    var diff := ModeChange(was, now, content);
    var parent: Tree := map["src" := Recorded(OneFile(was, content)["src"])];
    OffTheMarker(was, now, content);
    assert diff[..0] == [] && AppliedAll(parent, diff) == Applied(AppliedAll(parent, []), diff[0]);
    assert parent["src" := parent["src"]] == parent;
  }
}
