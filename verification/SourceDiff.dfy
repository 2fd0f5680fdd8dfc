/** Trees of source files and the changes between two of them (src/diff/source-diff.ts). */
module SourceDiff {
  import opened Wrappers
  import opened Sorting

  type Path = string

  datatype EntryType = File | Symlink

  /** The content stands for its SHA-256 as well: the hash is taken to be injective. */
  datatype FileEntry = FileEntry(kind: EntryType, mode: nat, content: string, link: Option<Path>)

  type Manifest = map<Path, FileEntry>

  datatype Change =
    | Added(path: Path, entry: FileEntry)
    | Modified(path: Path, entry: FileEntry, previous: FileEntry)
    | Deleted(path: Path, previous: FileEntry)

  /** `localeCompare`, as any injective ranking of paths. */
  type Order = Path -> real

  ghost predicate TotalOrder(order: Order) {
    forall p, q :: order(p) == order(q) ==> p == q
  }

  predicate HasPrefix(path: Path, prefix: Path) {
    prefix <= path
  }

  /** Dependency volumes and the synthetic repository, at the root of the tree only. */
  predicate Excluded(path: Path) {
    path == "node_modules" || HasPrefix(path, "node_modules/") || path == ".git" || HasPrefix(path, ".git/")
  }

  /** The directory itself, or anything in it. */
  ghost predicate AtOrUnder(path: Path, dir: Path) {
    path == dir || exists rest :: path == dir + "/" + rest
  }

  lemma UnderMeans(path: Path, dir: Path)
    ensures AtOrUnder(path, dir) <==> path == dir || HasPrefix(path, dir + "/")
  {
    if HasPrefix(path, dir + "/") {
      assert path == dir + "/" + path[|dir| + 1..];
    }
  }

  /** Where nothing counts as a change. */
  ghost predicate Ignored(path: Path) {
    AtOrUnder(path, "node_modules") || AtOrUnder(path, ".git")
  }

  lemma ExcludedMeans(path: Path)
    ensures Excluded(path) <==> Ignored(path)
  {
    UnderMeans(path, "node_modules");
    UnderMeans(path, ".git");
    assert "node_modules" + "/" == "node_modules/" && ".git" + "/" == ".git/";
  }

  predicate Differs(before: FileEntry, after: FileEntry) {
    before.content != after.content || before.mode != after.mode || before.kind != after.kind || before.link != after.link
  }

  function Get(m: Manifest, p: Path): Option<FileEntry> {
    if p in m then Some(m[p]) else None
  }

  /** What happened to one path, read off the two trees. */
  function ChangeAt(before: Manifest, after: Manifest, p: Path): Option<Change> {
    if Excluded(p) then None
    else if p in after && p !in before then Some(Added(p, after[p]))
    else if p in after && p in before && Differs(before[p], after[p]) then Some(Modified(p, after[p], before[p]))
    else if p in before && p !in after then Some(Deleted(p, before[p]))
    else None
  }

  /** What a change says of the two trees. */
  predicate TrueOf(c: Change, before: Manifest, after: Manifest) {
    match c
    case Added(p, entry) => p !in before && p in after && after[p] == entry
    case Modified(p, entry, previous) => p in before && p in after && before[p] == previous && after[p] == entry && previous != entry
    case Deleted(p, previous) => p in before && p !in after && before[p] == previous
  }

  lemma ChangeMeans(before: Manifest, after: Manifest, c: Change)
    ensures ChangeAt(before, after, c.path) == Some(c) <==> TrueOf(c, before, after) && !Ignored(c.path)
  {
    ExcludedMeans(c.path);
  }

  function ByPath(order: Order): (Change, Change) -> bool {
    (a: Change, b: Change) => order(a.path) <= order(b.path)
  }

  /** Exactly one change for every path that changed, in path order. */
  ghost predicate IsDiff(order: Order, changes: seq<Change>, before: Manifest, after: Manifest) {
    && Sorted(changes, ByPath(order))
    && NoDuplicates(changes)
    && (forall c :: c in changes <==> ChangeAt(before, after, c.path) == Some(c))
  }

  ghost predicate Collected(changes: seq<Change>, before: Manifest, after: Manifest, seen: set<Path>, gone: set<Path>) {
    && NoDuplicates(changes)
    && (forall c :: c in changes <==>
          ChangeAt(before, after, c.path) == Some(c)
          && ((!c.Deleted? && c.path in seen) || (c.Deleted? && c.path in gone)))
  }

  lemma PushFresh(changes: seq<Change>, c: Change)
    requires NoDuplicates(changes) && c !in changes
    ensures NoDuplicates(changes + [c])
    ensures forall d :: d in changes + [c] <==> d in changes || d == c
  {
  }

  lemma SortKeepsDistinct<T>(s: seq<T>, le: (T, T) -> bool)
    requires NoDuplicates(s)
    ensures NoDuplicates(Sort(s, le)) && forall x :: x in Sort(s, le) <==> x in s
  {
    var r := Sort(s, le);
    forall x ensures x in r <==> x in s {
      InMultiset(r, x);
      InMultiset(s, x);
    }
    forall i, j | 0 <= i < j < |r| ensures r[i] != r[j] {
      if r[i] == r[j] {
        assert r == r[..j] + [r[j]] + r[j + 1..];
        assert r[i] in r[..j];
        assert multiset(r)[r[i]] >= 2;
        CountDistinct(s, r[i]);
      }
    }
  }

  lemma ByPathIsTotal(order: Order)
    ensures TotalPreorder(ByPath(order))
  {
  }

  /** The loop over the later tree, in any order. */
  method PresentChanges(before: Manifest, after: Manifest) returns (changes: seq<Change>)
    ensures Collected(changes, before, after, after.Keys, {})
  {
    changes := [];
    var left := after.Keys;
    while left != {}
      invariant left <= after.Keys
      invariant Collected(changes, before, after, after.Keys - left, {})
      decreases left
    {
      var p :| p in left;
      var next := changes;
      if !Excluded(p) {
        if p !in before {
          PushFresh(changes, Added(p, after[p]));
          next := changes + [Added(p, after[p])];
        } else if Differs(before[p], after[p]) {
          PushFresh(changes, Modified(p, after[p], before[p]));
          next := changes + [Modified(p, after[p], before[p])];
        }
      }
      assert Collected(next, before, after, after.Keys - (left - {p}), {});
      left := left - {p};
      changes := next;
    }
    assert after.Keys - left == after.Keys;
  }

  /** The loop over the earlier tree, in any order. */
  method WithDeletions(present: seq<Change>, before: Manifest, after: Manifest) returns (changes: seq<Change>)
    requires Collected(present, before, after, after.Keys, {})
    ensures Collected(changes, before, after, after.Keys, before.Keys)
  {
    changes := present;
    var left := before.Keys;
    while left != {}
      invariant left <= before.Keys
      invariant Collected(changes, before, after, after.Keys, before.Keys - left)
      decreases left
    {
      var p :| p in left;
      var next := changes;
      if !Excluded(p) && p !in after {
        PushFresh(changes, Deleted(p, before[p]));
        next := changes + [Deleted(p, before[p])];
      }
      assert Collected(next, before, after, after.Keys, before.Keys - (left - {p}));
      left := left - {p};
      changes := next;
    }
    assert before.Keys - left == before.Keys;
  }

  /** The two loops over the trees, then the sort. */
  method DiffManifests(order: Order, before: Manifest, after: Manifest) returns (changes: seq<Change>)
    ensures IsDiff(order, changes, before, after)
    ensures forall c :: c in changes <==> TrueOf(c, before, after) && !Ignored(c.path)
    ensures forall i, j | 0 <= i < j < |changes| :: changes[i] != changes[j] && order(changes[i].path) <= order(changes[j].path)
  {
    changes := PresentChanges(before, after);
    changes := WithDeletions(changes, before, after);
    SortKeepsDistinct(changes, ByPath(order));
    ByPathIsTotal(order);
    SortSorted(changes, ByPath(order));
    changes := Sort(changes, ByPath(order));
    forall c ensures c in changes <==> TrueOf(c, before, after) && !Ignored(c.path) {
      ChangeMeans(before, after, c);
    }
    forall i, j | 0 <= i < j < |changes| ensures order(changes[i].path) <= order(changes[j].path) {
      assert ByPath(order)(changes[i], changes[j]);
    }
  }

  ghost predicate OnePerPath(changes: seq<Change>) {
    forall i, j | 0 <= i < j < |changes| :: changes[i].path != changes[j].path
  }

  lemma DiffHasOnePerPath(order: Order, changes: seq<Change>, before: Manifest, after: Manifest)
    requires IsDiff(order, changes, before, after)
    ensures OnePerPath(changes)
  {
    forall i, j | 0 <= i < j < |changes| ensures changes[i].path != changes[j].path {
      assert changes[i] in changes && changes[j] in changes;
    }
  }

  /** The diff of two trees is unique: neither Map iteration order nor the sort's handling of ties shows. */
  lemma DiffUnique(order: Order, c: seq<Change>, d: seq<Change>, before: Manifest, after: Manifest)
    requires TotalOrder(order) && IsDiff(order, c, before, after) && IsDiff(order, d, before, after)
    ensures c == d
  {
    SetDeterminesMultiset(c, d);
    SortedUnique(c, d, ByPath(order));
  }

  /** A path has no change exactly when it is excluded or both trees have the same there. */
  lemma UnchangedMeansEqual(before: Manifest, after: Manifest, p: Path)
    ensures ChangeAt(before, after, p).None? <==> Excluded(p) || Get(before, p) == Get(after, p)
  {
  }
}
