/** The commit graph, the plan branch and its history (src/git/idempotency.ts, src/git/accept.ts). */
module Commits {
  import opened Wrappers
  import opened Records

  /**
   * `parent` is the first parent and `merged` any others. `steps` and `keys` are the trailer values the commit
   * carries; `text` holds the keys a search of its message finds, which prose can widen. `content` is the snapshot
   * whose diff a harness commit applied.
   */
  datatype Commit = Commit(parent: Option<CommitId>, merged: set<CommitId>, steps: set<StepId>, keys: set<Key>,
                           text: set<Key>, content: Snapshot)
  {
    function Parents(): set<CommitId> {
      (if parent.Some? then {parent.value} else {}) + merged
    }
  }

  /** One value the plan branch took, and who gave it. */
  datatype RefMove = ByHarness(tip: CommitId) | ByOther(to: Option<CommitId>) {
    function Target(): Option<CommitId> {
      match this
      case ByHarness(c) => Some(c)
      case ByOther(t) => t
    }
  }

  /** `misreads` counts the Git commands of the harness that only read and have failed. */
  datatype Git = Git(commits: map<CommitId, Commit>, branch: Option<CommitId>, moves: seq<RefMove>, misreads: nat)

  /** Parents are older than their child, and a commit can only name keys whose attempt already existed. */
  ghost predicate CommitOk(commits: map<CommitId, Commit>, c: CommitId)
    requires c in commits
  {
    && (forall p | p in commits[c].Parents() :: p < c && p in commits)
    && commits[c].keys <= commits[c].text
    && (forall k | k in commits[c].text :: k.attempt < c)
  }

  ghost predicate GraphOk(commits: map<CommitId, Commit>) {
    forall c | c in commits :: CommitOk(commits, c)
  }

  ghost predicate GitOk(g: Git, nonce: nat) {
    && GraphOk(g.commits)
    && (forall c | c in g.commits :: c < nonce)
    && g.branch == (if g.moves == [] then None else g.moves[|g.moves| - 1].Target())
    && (forall k | 0 <= k < |g.moves| :: g.moves[k].Target().Some? ==> g.moves[k].Target().value in g.commits)
  }

  /** Nobody but the harness has ever moved the branch. */
  ghost predicate Undisturbed(g: Git) {
    forall k | 0 <= k < |g.moves| :: g.moves[k].ByHarness?
  }

  /** Nobody else has moved the branch, and the harness has always been able to read it. */
  ghost predicate Calm(g: Git) {
    Undisturbed(g) && g.misreads == 0
  }

  function Moved(g: Git, m: RefMove): Git {
    g.(branch := m.Target(), moves := g.moves + [m])
  }

  predicate Reaches(commits: map<CommitId, Commit>, from: CommitId, c: CommitId)
    requires GraphOk(commits) && from in commits
    decreases from
  {
    assert CommitOk(commits, from);
    from == c || exists p | p in commits[from].Parents() :: Reaches(commits, p, c)
  }

  /** Each commit is followed by one of its parents, first or merged. */
  predicate IsWay(commits: map<CommitId, Commit>, way: seq<CommitId>) {
    forall k | 0 <= k < |way| - 1 ::
      way[k] in commits && (commits[way[k]].parent == Some(way[k + 1]) || way[k + 1] in commits[way[k]].merged)
  }

  lemma {:induction false} WayOf(commits: map<CommitId, Commit>, from: CommitId, c: CommitId) returns (way: seq<CommitId>)
    requires GraphOk(commits) && from in commits && Reaches(commits, from, c)
    ensures way != [] && way[0] == from && way[|way| - 1] == c && IsWay(commits, way)
    decreases from
  {
    assert CommitOk(commits, from);
    if from == c {
      way := [from];
    } else {
      var p :| p in commits[from].Parents() && Reaches(commits, p, c);
      var rest := WayOf(commits, p, c);
      way := [from] + rest;
    }
  }

  lemma {:induction false} WayReaches(commits: map<CommitId, Commit>, way: seq<CommitId>)
    requires GraphOk(commits) && way != [] && way[0] in commits && IsWay(commits, way)
    ensures Reaches(commits, way[0], way[|way| - 1])
    decreases |way|
  {
    if |way| > 1 {
      assert CommitOk(commits, way[0]) && way[1] in commits[way[0]].Parents();
      WayReaches(commits, way[1..]);
    }
  }

  /** A commit reaches another exactly when some way along parents leads there. */
  lemma ReachesMeans(commits: map<CommitId, Commit>, from: CommitId, c: CommitId)
    requires GraphOk(commits) && from in commits
    ensures Reaches(commits, from, c)
            <==> exists way :: way != [] && way[0] == from && way[|way| - 1] == c && IsWay(commits, way)
  {
    if Reaches(commits, from, c) {
      var way := WayOf(commits, from, c);
      assert way != [] && IsWay(commits, way);
    }
    if way :| way != [] && way[0] == from && way[|way| - 1] == c && IsWay(commits, way) {
      WayReaches(commits, way);
    }
  }

  lemma HasNewest(s: set<CommitId>)
    requires s != {}
    ensures exists m :: m in s && forall n | n in s :: n <= m
  {
    var x :| x in s;
    var rest := s - {x};
    assert forall n | n in s :: n == x || n in rest;
    if rest == {} {
      assert x in s && forall n | n in s :: n <= x;
    } else {
      HasNewest(rest);
      var m :| m in rest && forall n | n in rest :: n <= m;
      var most := if x <= m then m else x;
      assert most in s && forall n | n in s :: n <= most;
    }
  }

  function Newest(s: set<CommitId>): (m: CommitId)
    requires s != {}
    ensures m in s && forall n | n in s :: n <= m
  {
    HasNewest(s);
    var m: CommitId :| m in s && forall n | n in s :: n <= m;
    m
  }

  /** `git log <branch> --grep --max-count=1`: the newest commit behind `from`, itself included, whose message mentions the key. */
  function FindByKey(commits: map<CommitId, Commit>, from: CommitId, key: Key): (r: Option<CommitId>)
    requires GraphOk(commits) && from in commits
    ensures r.Some? ==> r.value in commits && key in commits[r.value].text && Reaches(commits, from, r.value)
    ensures forall c | c in commits && Reaches(commits, from, c) && key in commits[c].text :: r.Some? && c <= r.value
  {
    var hits := set c | c in commits && Reaches(commits, from, c) && key in commits[c].text;
    assert forall c | c in commits && Reaches(commits, from, c) && key in commits[c].text :: c in hits;
    if hits == {} then None else Some(Newest(hits))
  }

  /** The commits after `base` on the first-parent way to `from`, oldest first. */
  function Chain(commits: map<CommitId, Commit>, base: CommitId, from: CommitId): seq<CommitId>
    requires GraphOk(commits) && from in commits
    decreases from
  {
    assert CommitOk(commits, from);
    if from == base then []
    else (if commits[from].parent.Some? then Chain(commits, base, commits[from].parent.value) else []) + [from]
  }

  lemma {:induction false} ReachesOlder(commits: map<CommitId, Commit>, from: CommitId, c: CommitId)
    requires GraphOk(commits) && from in commits && Reaches(commits, from, c)
    ensures c <= from && c in commits
    decreases from
  {
    assert CommitOk(commits, from);
    if from != c {
      var p :| p in commits[from].Parents() && Reaches(commits, p, c);
      ReachesOlder(commits, p, c);
    }
  }

  /** Adding commits changes nothing about the ancestry of the old ones. */
  lemma {:induction false} ReachesGrows(commits: map<CommitId, Commit>, more: map<CommitId, Commit>, from: CommitId, c: CommitId)
    requires GraphOk(commits) && GraphOk(more) && from in commits
    requires forall d | d in commits :: d in more && more[d] == commits[d]
    ensures Reaches(more, from, c) == Reaches(commits, from, c)
    decreases from
  {
    assert CommitOk(commits, from) && CommitOk(more, from);
    forall p | p in commits[from].Parents() ensures Reaches(more, p, c) == Reaches(commits, p, c) {
      ReachesGrows(commits, more, p, c);
    }
  }

  /** A tip that mentions the key itself is what the search finds. */
  lemma TipIsFound(commits: map<CommitId, Commit>, tip: CommitId, key: Key)
    requires GraphOk(commits) && tip in commits && key in commits[tip].text
    ensures FindByKey(commits, tip, key) == Some(tip)
  {
    assert Reaches(commits, tip, tip);
    ReachesOlder(commits, tip, FindByKey(commits, tip, key).value);
  }

  lemma FoundInMore(commits: map<CommitId, Commit>, more: map<CommitId, Commit>, from: CommitId, key: Key)
    requires GraphOk(commits) && GraphOk(more) && from in commits
    requires forall d | d in commits :: d in more && more[d] == commits[d]
    requires FindByKey(commits, from, key).Some?
    ensures FindByKey(more, from, key).Some? && FindByKey(commits, from, key).value <= FindByKey(more, from, key).value
  {
    ReachesGrows(commits, more, from, FindByKey(commits, from, key).value);
  }

  lemma FoundInFewer(commits: map<CommitId, Commit>, more: map<CommitId, Commit>, from: CommitId, key: Key)
    requires GraphOk(commits) && GraphOk(more) && from in commits
    requires forall d | d in commits :: d in more && more[d] == commits[d]
    requires FindByKey(more, from, key).Some?
    ensures FindByKey(commits, from, key).Some? && FindByKey(more, from, key).value <= FindByKey(commits, from, key).value
  {
    var c := FindByKey(more, from, key).value;
    ReachesGrows(commits, more, from, c);
    ReachesOlder(commits, from, c);
  }

  /** Commits added elsewhere do not change what a search from the same tip finds. */
  lemma FindGrows(commits: map<CommitId, Commit>, more: map<CommitId, Commit>, from: CommitId, key: Key)
    requires GraphOk(commits) && GraphOk(more) && from in commits
    requires forall d | d in commits :: d in more && more[d] == commits[d]
    ensures FindByKey(more, from, key) == FindByKey(commits, from, key)
  {
    if FindByKey(commits, from, key).Some? {
      FoundInMore(commits, more, from, key);
    }
    if FindByKey(more, from, key).Some? {
      FoundInFewer(commits, more, from, key);
    }
  }
}
