/** The three durable stores beside the database: the repository, the snapshot store and the numbered reports. */
module Stores {
  import opened Wrappers
  import opened Records
  import opened Commits
  import opened Protocol

  /** The plan's repository, and the counter every fresh id is taken from. */
  class Repository {
    var git: Git
    var nonce: nat

    constructor (g: Git, n: nat)
      ensures git == g && nonce == n
    {
      git, nonce := g, n;
    }

    method TakeNonce() returns (id: nat)
      modifies this`nonce
      ensures id == old(nonce) && nonce == id + 1
    {
      id := nonce;
      nonce := nonce + 1;
    }

    method AddCommit(c: Commit) returns (id: CommitId)
      modifies this
      ensures id == old(nonce) && nonce == id + 1 && git == old(git).(commits := old(git).commits[id := c])
    {
      id := TakeNonce();
      git := git.(commits := git.commits[id := c]);
    }

    /** `git update-ref` with an expected old value; `None` means the ref must not exist. */
    method UpdateRef(tip: CommitId, expected: Option<CommitId>) returns (moved: bool)
      modifies this`git
      ensures moved <==> old(git).branch == expected
      ensures git == if moved then Moved(old(git), ByHarness(tip)) else old(git)
    {
      moved := git.branch == expected;
      if moved {
        git := Moved(git, ByHarness(tip));
      }
    }

    /** A command that only reads has failed. */
    method Misread()
      modifies this`git
      ensures git == old(git).(misreads := old(git).misreads + 1)
    {
      git := git.(misreads := git.misreads + 1);
    }

    method MoveByOther(to: Option<CommitId>)
      modifies this`git
      ensures git == Moved(old(git), ByOther(to))
    {
      git := Moved(git, ByOther(to));
    }
  }

  /** A content-addressed directory as the set of hashes it holds (src/artifacts/store.ts). */
  class ArtifactStore {
    var held: set<Snapshot>

    constructor ()
      ensures held == {}
    {
      held := {};
    }

    method Put(s: Snapshot)
      modifies this
      ensures held == old(held) + {s}
    {
      held := held + {s};
    }

    method Remove(s: Snapshot)
      modifies this
      ensures held == old(held) - {s}
    {
      held := held - {s};
    }
  }

  /** The files `reports/invocation-<n>.json` (writeReport, latestReport and nextOrdinal of src/run/coordinator.ts). */
  class ReportDirectory {
    var files: map<nat, Report>

    ghost predicate Valid() reads this {
      forall n: nat :: n in files <==> 1 <= n <= |files|
    }

    ghost function Contents(): (s: seq<Report>)
      requires Valid()
      reads this
      ensures |s| == |files|
      ensures forall k | 0 <= k < |s| :: s[k] == files[k + 1]
    {
      var all := files;
      seq(|all|, k requires 0 <= k < |all| && k + 1 in all => all[k + 1])
    }

    constructor ()
      ensures Valid() && Contents() == []
    {
      files := map[];
    }

    /** One more than the largest number in use, or 1. */
    method NextOrdinal() returns (n: nat)
      requires Valid()
      ensures n == |files| + 1
    {
      n := 1;
      var left := files.Keys;
      while left != {}
        invariant left <= files.Keys
        invariant 1 <= n && (n == 1 || n - 1 in files)
        invariant forall k | k in files && k !in left :: k < n
        decreases left
      {
        var k :| k in left;
        left := left - {k};
        if n <= k {
          n := k + 1;
        }
      }
      assert n == 1 || n - 1 <= |files|;
      assert |files| > 0 ==> |files| in files;
    }

    method Write(r: Report)
      requires Valid()
      modifies this
      ensures Valid() && Contents() == old(Contents()) + [r]
    {
      var n := NextOrdinal();
      assert n !in files;
      assert |files[n := r]| == |files| + 1 by {
        assert files[n := r].Keys == files.Keys + {n};
      }
      files := files[n := r];
    }

    method Latest() returns (r: Option<Report>)
      requires Valid()
      ensures r == if Contents() == [] then None else Some(Contents()[|Contents()| - 1])
    {
      var n := NextOrdinal();
      r := if n <= 1 then None else Some(files[n - 1]);
    }
  }
}
