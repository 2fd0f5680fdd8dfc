/**
 * How a tests-first step's two validated phase diffs make the change set that is committed
 * (runStep of src/run/orchestrator.ts, src/verify/dispute.ts).
 */
module StepChanges {
  import opened Wrappers
  import opened Sorting
  import opened SourceDiff
  import opened Validate

  const DISPUTE_PATH: Path := ".harness/test-contract-dispute.md"

  predicate OffDispute(c: Change) {
    c.path != DISPUTE_PATH
  }

  /** Every change but the dispute marker. */
  function ExcludeDispute(changes: seq<Change>): (r: seq<Change>)
    ensures forall c :: c in r <==> c in changes && c.path != DISPUTE_PATH
    ensures forall c :: multiset(r)[c] == if c.path == DISPUTE_PATH then 0 else multiset(changes)[c]
  {
    FilterMeans(changes, OffDispute);
    Filter(changes, OffDispute)
  }

  /** Whatever relation holds along the changes still holds along those that are kept. */
  lemma ExcludeKeepsOrder(changes: seq<Change>, le: (Change, Change) -> bool)
    requires Sorted(changes, le)
    ensures Sorted(ExcludeDispute(changes), le)
  {
    FilterIsSorted(changes, OffDispute, le);
  }

  /** A dispute is raised by a regular file at the dispute path. */
  predicate IsDispute(c: Change) {
    c.path == DISPUTE_PATH && !c.Deleted? && c.entry.kind.File?
  }

  /** The characters `trim` removes: white space and line terminators. */
  predicate IsSpace(c: char) {
    c in {'\t', '\n', '\r', ' ', '\U{0B}', '\U{0C}', '\U{A0}', '\U{1680}', '\U{2028}', '\U{2029}', '\U{202F}', '\U{205F}',
          '\U{3000}', '\U{FEFF}'}
    || '\U{2000}' <= c <= '\U{200A}'
  }

  predicate AllSpace(text: string) {
    forall i | 0 <= i < |text| :: IsSpace(text[i])
  }

  function TrimStart(text: string): (r: string)
    ensures |r| <= |text| && r == text[|text| - |r|..] && AllSpace(text[..|text| - |r|])
    ensures r == "" || !IsSpace(r[0])
  {
    if text == "" || !IsSpace(text[0]) then text else TrimStart(text[1..])
  }

  function TrimEnd(text: string): (r: string)
    ensures r <= text && AllSpace(text[|r|..])
    ensures r == "" || !IsSpace(r[|r| - 1])
  {
    if text == "" || !IsSpace(text[|text| - 1]) then text else TrimEnd(text[..|text| - 1])
  }

  function Trim(text: string): string {
    TrimEnd(TrimStart(text))
  }

  lemma Within(text: string, i: nat, k: nat)
    requires i + k <= |text|
    ensures text[i..][..k] == text[i..i + k] && text[i..][k..] == text[i + k..]
  {
  }

  /** A text and its non-empty prefix start with the same character. */
  lemma StartsWhere(text: string, prefix: string)
    requires prefix <= text && (text == "" || !IsSpace(text[0]))
    ensures prefix == "" || !IsSpace(prefix[0])
  {
  }

  /** Only white space is lost, and none is left at either end. */
  lemma TrimMeans(text: string) returns (i: nat, j: nat)
    ensures i <= j <= |text| && Trim(text) == text[i..j]
    ensures AllSpace(text[..i]) && AllSpace(text[j..])
    ensures Trim(text) == "" || (!IsSpace(Trim(text)[0]) && !IsSpace(Trim(text)[|Trim(text)| - 1]))
  {
    var r := TrimStart(text);
    i := |text| - |r|;
    j := i + |Trim(text)|;
    Within(text, i, |Trim(text)|);
    assert Trim(text) == r[..|Trim(text)|];
    StartsWhere(r, Trim(text));
  }

  /** The first disputing change from position `k` on. */
  function FirstDispute(changes: seq<Change>, k: nat): (r: Option<nat>)
    requires k <= |changes|
    ensures r.None? ==> forall i | k <= i < |changes| :: !IsDispute(changes[i])
    ensures r.Some? ==> k <= r.value < |changes| && IsDispute(changes[r.value])
    ensures r.Some? ==> forall i | k <= i < r.value :: !IsDispute(changes[i])
    decreases |changes| - k
  {
    if k == |changes| then None
    else if IsDispute(changes[k]) then Some(k)
    else FirstDispute(changes, k + 1)
  }

  /** What the regular file at the dispute path says, trimmed. */
  function CaptureDispute(changes: seq<Change>): (r: Option<string>)
    ensures r.None? <==> forall c | c in changes :: !IsDispute(c)
    ensures r.Some? ==> exists c | c in changes :: IsDispute(c) && r.value == Trim(c.entry.content)
  {
    match FirstDispute(changes, 0)
    case None => None
    case Some(i) =>
      assert changes[i] in changes;
      Some(Trim(changes[i].entry.content))
  }

  /** The change set acceptance is given, in any order: every change of the diff but the dispute marker. */
  ghost predicate ToCommit(changes: seq<Change>, source: Manifest, snapshot: Manifest) {
    && OnePerPath(changes)
    && forall c :: c in changes <==> ChangeAt(source, snapshot, c.path) == Some(c) && c.path != DISPUTE_PATH
  }

  lemma ExcludeKeepsOnePerPath(changes: seq<Change>)
    requires OnePerPath(changes)
    ensures OnePerPath(ExcludeDispute(changes))
  {
    ExcludeKeepsOrder(changes, (c: Change, d: Change) => c.path != d.path);
  }

  lemma DiffIsToCommit(order: Order, changes: seq<Change>, before: Manifest, after: Manifest)
    requires IsDiff(order, changes, before, after)
    ensures ToCommit(ExcludeDispute(changes), before, after)
  {
    DiffHasOnePerPath(order, changes, before, after);
    ExcludeKeepsOnePerPath(changes);
  }

  // ---------------------------------------------------------------- the two phases

  /** The declared paths of a `code_behavior` step. */
  datatype Scopes = Scopes(tests: seq<string>, implementation: seq<string>, closure: seq<string>)

  function ImplementationScope(s: Scopes): seq<string> {
    s.implementation + [DISPUTE_PATH]
  }

  datatype StepFailure = InvalidTests(v: Violation) | InvalidImplementation(v: Violation) | Disputed(reason: string)

  ghost predicate ValidPhase(m: Matcher, changes: seq<Change>, scope: seq<string>, frozen: seq<string>) {
    changes != [] && forall c | c in changes :: Clean(m, c, scope, frozen)
  }

  /** Both phase diffs validated as the orchestrator validates them. */
  ghost predicate PhasesValid(m: Matcher, s: Scopes, tests: seq<Change>, implementation: seq<Change>) {
    && ValidPhase(m, tests, s.tests, s.closure)
    && ValidPhase(m, implementation, s.implementation + [DISPUTE_PATH], s.closure + s.tests)
  }

  // ---------------------------------------------------------------- the two phases never touch the same path

  lemma TestsPath(m: Matcher, s: Scopes, tests: seq<Change>, implementation: seq<Change>, c: Change)
    requires PhasesValid(m, s, tests, implementation) && c in tests
    ensures Matches(m, c.path, s.tests) && !Matches(m, c.path, s.closure)
  {
    assert Clean(m, c, s.tests, s.closure);
  }

  lemma ImplementationPath(m: Matcher, s: Scopes, tests: seq<Change>, implementation: seq<Change>, c: Change)
    requires PhasesValid(m, s, tests, implementation) && c in implementation
    ensures !Matches(m, c.path, s.tests) && !Matches(m, c.path, s.closure)
    ensures Matches(m, c.path, s.implementation) || Matches(m, c.path, [DISPUTE_PATH])
  {
    assert Clean(m, c, s.implementation + [DISPUTE_PATH], s.closure + s.tests);
    MatchesEither(m, c.path, s.implementation, [DISPUTE_PATH]);
    MatchesEither(m, c.path, s.closure, s.tests);
  }

  lemma PhasesDisjoint(m: Matcher, s: Scopes, tests: seq<Change>, implementation: seq<Change>, c: Change, d: Change)
    requires PhasesValid(m, s, tests, implementation) && c in tests && d in implementation
    ensures c.path != d.path
  {
    TestsPath(m, s, tests, implementation, c);
    ImplementationPath(m, s, tests, implementation, d);
  }

  // ---------------------------------------------------------------- the unvalidated cumulative diff

  /** A path the implementation left alone changed overall exactly as the tests phase changed it, and vice versa. */
  lemma ChangesCompose(before: Manifest, between: Manifest, after: Manifest, p: Path)
    ensures ChangeAt(between, after, p).None? ==> ChangeAt(before, after, p) == ChangeAt(before, between, p)
    ensures ChangeAt(before, between, p).None? ==> ChangeAt(before, after, p) == ChangeAt(between, after, p)
  {
    UnchangedMeansEqual(between, after, p);
    UnchangedMeansEqual(before, between, p);
  }

  lemma InOneOfThem(order: Order, before: Manifest, between: Manifest, after: Manifest,
                    tests: seq<Change>, implementation: seq<Change>, c: Change)
    requires IsDiff(order, tests, before, between) && IsDiff(order, implementation, between, after)
    requires forall d, e | d in tests && e in implementation :: d.path != e.path
    ensures ChangeAt(before, after, c.path) == Some(c) <==> c in tests + implementation
  {
    var t, i := ChangeAt(before, between, c.path), ChangeAt(between, after, c.path);
    assert t.Some? ==> t.value in tests && t.value.path == c.path;
    assert i.Some? ==> i.value in implementation && i.value.path == c.path;
    assert c in tests <==> t == Some(c);
    assert c in implementation <==> i == Some(c);
    ChangesCompose(before, between, after, c.path);
  }

  lemma DisjointHasNoDuplicates(tests: seq<Change>, implementation: seq<Change>)
    requires NoDuplicates(tests) && NoDuplicates(implementation)
    requires forall c, d | c in tests && d in implementation :: c.path != d.path
    ensures NoDuplicates(tests + implementation)
  {
    var both := tests + implementation;
    forall k, l | 0 <= k < l < |both| ensures both[k] != both[l] {
      if k < |tests| <= l {
        assert both[k] in tests && both[l] in implementation;
      }
    }
  }

  /**
   * The cumulative diff, which nothing validates, is the sorted merge of the two validated ones: no path is in
   * both, and no change is lost, added or altered.
   */
  lemma CumulativeIsMerge(m: Matcher, order: Order, s: Scopes, before: Manifest, between: Manifest, after: Manifest,
                          tests: seq<Change>, implementation: seq<Change>, cumulative: seq<Change>)
    requires TotalOrder(order)
    requires IsDiff(order, tests, before, between) && IsDiff(order, implementation, between, after)
    requires IsDiff(order, cumulative, before, after)
    requires PhasesValid(m, s, tests, implementation)
    ensures forall c, d | c in tests && d in implementation :: c.path != d.path
    ensures cumulative == Sort(tests + implementation, ByPath(order))
  {
    forall c, d | c in tests && d in implementation ensures c.path != d.path {
      PhasesDisjoint(m, s, tests, implementation, c, d);
    }
    var both := tests + implementation;
    forall c ensures c in cumulative <==> c in both {
      InOneOfThem(order, before, between, after, tests, implementation, c);
    }
    DisjointHasNoDuplicates(tests, implementation);
    SortKeepsDistinct(both, ByPath(order));
    ByPathIsTotal(order);
    SortSorted(both, ByPath(order));
    assert IsDiff(order, Sort(both, ByPath(order)), before, after);
    DiffUnique(order, cumulative, Sort(both, ByPath(order)), before, after);
  }

  /** What validating the phases gave, for the change set that is committed. */
  ghost predicate Covered(m: Matcher, s: Scopes, c: Change) {
    && (Matches(m, c.path, s.tests) || Matches(m, c.path, s.implementation) || Matches(m, c.path, [DISPUTE_PATH]))
    && !Matches(m, c.path, s.closure)
    && !IsDependencyManifest(c.path) && !Escapes(m, c)
  }

  lemma CumulativeIsCovered(m: Matcher, s: Scopes, tests: seq<Change>, implementation: seq<Change>, c: Change)
    requires PhasesValid(m, s, tests, implementation) && c in tests + implementation
    ensures Covered(m, s, c)
  {
    if c in tests {
      TestsPath(m, s, tests, implementation, c);
      assert Clean(m, c, s.tests, s.closure);
    } else {
      ImplementationPath(m, s, tests, implementation, c);
      assert Clean(m, c, s.implementation + [DISPUTE_PATH], s.closure + s.tests);
    }
  }

  /** Whatever is under a test path is, in the implementation snapshot, exactly what RED was judged on. */
  lemma TestsAreFrozen(m: Matcher, order: Order, s: Scopes, between: Manifest, after: Manifest,
                       tests: seq<Change>, implementation: seq<Change>, p: Path)
    requires IsDiff(order, implementation, between, after) && PhasesValid(m, s, tests, implementation)
    requires !Excluded(p) && (Matches(m, p, s.tests) || Matches(m, p, s.closure))
    ensures Get(after, p) == Get(between, p)
  {
    UnchangedMeansEqual(between, after, p);
    if ChangeAt(between, after, p).Some? {
      assert ChangeAt(between, after, p).value in implementation;
      ImplementationPath(m, s, tests, implementation, ChangeAt(between, after, p).value);
    }
  }

  /** Dropping the dispute marker never empties the change set, wherever the test scope reaches. */
  lemma SomethingIsCommitted(m: Matcher, s: Scopes, tests: seq<Change>, implementation: seq<Change>)
    requires PhasesValid(m, s, tests, implementation)
    ensures exists c | c in tests + implementation :: c.path != DISPUTE_PATH
  {
    var c, d := tests[0], implementation[0];
    PhasesDisjoint(m, s, tests, implementation, c, d);
    assert c in tests + implementation && d in tests + implementation;
  }

  // ---------------------------------------------------------------- the orchestrator's composition

  /** The first thing wrong with the two phase diffs, or nothing wrong with either. */
  ghost predicate Judged(m: Matcher, s: Scopes, tests: seq<Change>, implementation: seq<Change>,
                         r: Result<seq<Change>, StepFailure>) {
    match r
    case Ok(_) => PhasesValid(m, s, tests, implementation) && CaptureDispute(implementation).None?
    case Err(Disputed(reason)) =>
      PhasesValid(m, s, tests, implementation) && CaptureDispute(implementation) == Some(reason)
    case Err(InvalidTests(v)) => Explains(m, v, tests, s.tests, s.closure)
    case Err(InvalidImplementation(v)) =>
      && ValidPhase(m, tests, s.tests, s.closure)
      && Explains(m, v, implementation, s.implementation + [DISPUTE_PATH], s.closure + s.tests)
  }

  /** A violation is reported only for a diff that is not valid, so `Judged` admits one verdict per pair of diffs. */
  lemma ExplainedIsInvalid(m: Matcher, v: Violation, changes: seq<Change>, scope: seq<string>, frozen: seq<string>)
    requires Explains(m, v, changes, scope, frozen)
    ensures !ValidPhase(m, changes, scope, frozen)
  {
    if changes != [] && !exists c | c in changes :: Matches(m, c.path, frozen) {
      var i :| 0 <= i < |changes| && Blames(m, v, changes[i], scope);
      assert changes[i] in changes && !Clean(m, changes[i], scope, frozen);
    }
  }

  // ---------------------------------------------------------------- the same, of the three trees

  ghost predicate Changed(before: Manifest, after: Manifest, p: Path) {
    !Ignored(p) && Get(before, p) != Get(after, p)
  }

  /** What the path has become is no dependency manifest and no link out of the tree. */
  ghost predicate SafePath(m: Matcher, after: Manifest, p: Path) {
    !IsDependencyManifest(p) && !(p in after && after[p].link.Some? && m.escapes(p, after[p].link.value))
  }

  /** The tests phase changed something, and nothing but tests. */
  ghost predicate OnlyTests(m: Matcher, s: Scopes, before: Manifest, between: Manifest) {
    && (exists p :: Changed(before, between, p))
    && forall p | Changed(before, between, p) :: Matches(m, p, s.tests) && !Matches(m, p, s.closure) && SafePath(m, between, p)
  }

  /** The implementation phase changed something, and nothing but implementation and the dispute path. */
  ghost predicate OnlyImplementation(m: Matcher, s: Scopes, between: Manifest, after: Manifest) {
    && (exists p :: Changed(between, after, p))
    && forall p | Changed(between, after, p) ::
         && (Matches(m, p, s.implementation) || Matches(m, p, [".harness/test-contract-dispute.md"]))
         && !Matches(m, p, s.closure) && !Matches(m, p, s.tests) && SafePath(m, after, p)
  }

  /** The implementation phase has left a regular file of its own at the dispute path. */
  predicate DisputeRaised(between: Manifest, after: Manifest) {
    var p := ".harness/test-contract-dispute.md";
    p in after && after[p].kind.File? && Get(between, p) != Get(after, p)
  }

  lemma ChangeIsClean(m: Matcher, before: Manifest, after: Manifest, c: Change, scope: seq<string>, frozen: seq<string>)
    requires TrueOf(c, before, after)
    ensures Clean(m, c, scope, frozen) <==> Matches(m, c.path, scope) && !Matches(m, c.path, frozen) && SafePath(m, after, c.path)
  {
  }

  lemma ChangedHasChange(order: Order, changes: seq<Change>, before: Manifest, after: Manifest, p: Path) returns (c: Change)
    requires IsDiff(order, changes, before, after) && Changed(before, after, p)
    ensures c in changes && c.path == p && TrueOf(c, before, after)
  {
    ExcludedMeans(p);
    c := ChangeAt(before, after, p).value;
    ChangeMeans(before, after, c);
  }

  lemma ChangeIsChanged(order: Order, changes: seq<Change>, before: Manifest, after: Manifest, c: Change)
    requires IsDiff(order, changes, before, after) && c in changes
    ensures Changed(before, after, c.path) && TrueOf(c, before, after)
  {
    ChangeMeans(before, after, c);
  }

  /** A phase's diff validates exactly when it changed something and every path it changed is allowed. */
  lemma ValidOnTrees(m: Matcher, order: Order, changes: seq<Change>, before: Manifest, after: Manifest,
                     scope: seq<string>, frozen: seq<string>)
    requires IsDiff(order, changes, before, after)
    ensures ValidPhase(m, changes, scope, frozen)
            <==> && (exists p :: Changed(before, after, p))
                 && forall p | Changed(before, after, p) :: Matches(m, p, scope) && !Matches(m, p, frozen) && SafePath(m, after, p)
  {
    forall p | Changed(before, after, p)
      ensures exists c | c in changes :: c.path == p && TrueOf(c, before, after)
    {
      var c := ChangedHasChange(order, changes, before, after, p);
    }
    forall c | c in changes
      ensures Changed(before, after, c.path)
      ensures Clean(m, c, scope, frozen) <==> Matches(m, c.path, scope) && !Matches(m, c.path, frozen) && SafePath(m, after, c.path)
    {
      ChangeIsChanged(order, changes, before, after, c);
      ChangeIsClean(m, before, after, c, scope, frozen);
    }
    assert changes != [] ==> changes[0] in changes;
  }

  lemma TestsOnTrees(m: Matcher, order: Order, s: Scopes, tests: seq<Change>, before: Manifest, between: Manifest)
    requires IsDiff(order, tests, before, between)
    ensures ValidPhase(m, tests, s.tests, s.closure) <==> OnlyTests(m, s, before, between)
  {
    ValidOnTrees(m, order, tests, before, between, s.tests, s.closure);
  }

  lemma ImplementationOnTrees(m: Matcher, order: Order, s: Scopes, implementation: seq<Change>, between: Manifest, after: Manifest)
    requires IsDiff(order, implementation, between, after)
    ensures ValidPhase(m, implementation, s.implementation + [DISPUTE_PATH], s.closure + s.tests)
            <==> OnlyImplementation(m, s, between, after)
  {
    ValidOnTrees(m, order, implementation, between, after, s.implementation + [DISPUTE_PATH], s.closure + s.tests);
    forall p ensures Matches(m, p, s.implementation + [DISPUTE_PATH]) <==> Matches(m, p, s.implementation) || Matches(m, p, [DISPUTE_PATH]) {
      MatchesEither(m, p, s.implementation, [DISPUTE_PATH]);
    }
    forall p ensures Matches(m, p, s.closure + s.tests) <==> Matches(m, p, s.closure) || Matches(m, p, s.tests) {
      MatchesEither(m, p, s.closure, s.tests);
    }
  }

  lemma DisputePathCounts()
    ensures !Ignored(DISPUTE_PATH)
  {
    ExcludedMeans(DISPUTE_PATH);
    assert DISPUTE_PATH[0] == '.' && DISPUTE_PATH[1] == 'h';
  }

  /** A dispute is captured exactly when one is raised, and says what the file says. */
  lemma DisputeOnTrees(order: Order, implementation: seq<Change>, between: Manifest, after: Manifest)
    requires IsDiff(order, implementation, between, after)
    ensures CaptureDispute(implementation).Some? <==> DisputeRaised(between, after)
    ensures CaptureDispute(implementation).Some? ==> CaptureDispute(implementation).value == Trim(after[DISPUTE_PATH].content)
  {
    if CaptureDispute(implementation).Some? {
      var c :| c in implementation && IsDispute(c) && CaptureDispute(implementation).value == Trim(c.entry.content);
      ChangeIsChanged(order, implementation, between, after, c);
    }
    if DisputeRaised(between, after) {
      DisputePathCounts();
      var c := ChangedHasChange(order, implementation, between, after, DISPUTE_PATH);
      assert IsDispute(c);
    }
  }

  /**
   * What a change set handed to acceptance is: every change between the export and the implementation snapshot but
   * the dispute marker, each covered by a validated scope, and the tests those RED was judged on.
   */
  ghost predicate Composed(m: Matcher, s: Scopes, before: Manifest, between: Manifest, after: Manifest,
                           changes: seq<Change>) {
    && changes != []
    && ToCommit(changes, before, after)
    && (forall c | c in changes :: Covered(m, s, c))
    && (forall p | !Excluded(p) && Matches(m, p, s.tests) :: Get(after, p) == Get(between, p))
  }

  lemma ValidPhasesCompose(m: Matcher, order: Order, s: Scopes, before: Manifest, between: Manifest, after: Manifest,
                           tests: seq<Change>, implementation: seq<Change>, cumulative: seq<Change>)
    requires TotalOrder(order)
    requires IsDiff(order, tests, before, between) && IsDiff(order, implementation, between, after)
    requires IsDiff(order, cumulative, before, after)
    requires PhasesValid(m, s, tests, implementation)
    ensures Composed(m, s, before, between, after, ExcludeDispute(cumulative))
  {
    CumulativeIsMerge(m, order, s, before, between, after, tests, implementation, cumulative);
    var both := tests + implementation;
    forall c ensures c in cumulative <==> c in both {
      InMultiset(cumulative, c);
      InMultiset(both, c);
    }
    SomethingIsCommitted(m, s, tests, implementation);
    DiffIsToCommit(order, cumulative, before, after);
    var kept := ExcludeDispute(cumulative);
    var c :| c in both && c.path != DISPUTE_PATH;
    assert c in kept;
    forall c | c in kept ensures Covered(m, s, c) {
      CumulativeIsCovered(m, s, tests, implementation, c);
    }
    forall p | !Excluded(p) && Matches(m, p, s.tests) ensures Get(after, p) == Get(between, p) {
      TestsAreFrozen(m, order, s, between, after, tests, implementation, p);
    }
  }

  /** The tests phase is validated first; a dispute is looked for only in a valid implementation diff. */
  method JudgePhases(m: Matcher, s: Scopes, tests: seq<Change>, implementation: seq<Change>)
    returns (r: Result<seq<Change>, StepFailure>)
    ensures Judged(m, s, tests, implementation, r)
  {
    var checked := ValidateChanges(m, tests, s.tests, FrozenPathsForPhase(Tests, s.closure, s.tests));
    if checked.Err? {
      return Err(InvalidTests(checked.error));
    }
    checked := ValidateChanges(m, implementation, ImplementationScope(s),
                               FrozenPathsForPhase(Implementation, s.closure, s.tests));
    if checked.Err? {
      return Err(InvalidImplementation(checked.error));
    }
    var dispute := CaptureDispute(implementation);
    if dispute.Some? {
      return Err(Disputed(dispute.value));
    }
    return Ok(implementation);
  }

  /** What the verdict on the two diffs says of the three trees. */
  lemma VerdictOnTrees(m: Matcher, order: Order, s: Scopes, tests: seq<Change>, implementation: seq<Change>,
                       before: Manifest, between: Manifest, after: Manifest, r: Result<seq<Change>, StepFailure>)
    requires IsDiff(order, tests, before, between) && IsDiff(order, implementation, between, after)
    requires Judged(m, s, tests, implementation, r)
    ensures r.Ok? <==>
              OnlyTests(m, s, before, between) && OnlyImplementation(m, s, between, after) && !DisputeRaised(between, after)
    ensures r.Err? && r.error.InvalidTests? <==> !OnlyTests(m, s, before, between)
    ensures r.Err? && r.error.InvalidImplementation? <==> OnlyTests(m, s, before, between) && !OnlyImplementation(m, s, between, after)
    ensures r.Err? && r.error.Disputed? ==> DisputeRaised(between, after) && r.error.reason == Trim(after[DISPUTE_PATH].content)
  {
    TestsOnTrees(m, order, s, tests, before, between);
    ImplementationOnTrees(m, order, s, implementation, between, after);
    DisputeOnTrees(order, implementation, between, after);
    match r {
      case Err(InvalidTests(v)) => ExplainedIsInvalid(m, v, tests, s.tests, s.closure);
      case Err(InvalidImplementation(v)) =>
        ExplainedIsInvalid(m, v, implementation, s.implementation + [DISPUTE_PATH], s.closure + s.tests);
      case _ =>
    }
  }

  /** The change set a tests-first step hands to acceptance, or why it stops. */
  method ComposeChanges(m: Matcher, order: Order, s: Scopes, before: Manifest, between: Manifest, after: Manifest)
    returns (r: Result<seq<Change>, StepFailure>)
    requires TotalOrder(order)
    ensures exists tests, implementation ::
              && IsDiff(order, tests, before, between) && IsDiff(order, implementation, between, after)
              && Judged(m, s, tests, implementation, r)
    ensures r.Ok? ==> Composed(m, s, before, between, after, r.value)
    ensures r.Ok? <==>
              OnlyTests(m, s, before, between) && OnlyImplementation(m, s, between, after) && !DisputeRaised(between, after)
    ensures r.Err? && r.error.InvalidTests? <==> !OnlyTests(m, s, before, between)
    ensures r.Err? && r.error.InvalidImplementation? <==> OnlyTests(m, s, before, between) && !OnlyImplementation(m, s, between, after)
    ensures r.Err? && r.error.Disputed? ==>
              DisputeRaised(between, after) && r.error.reason == Trim(after[".harness/test-contract-dispute.md"].content)
  {
    var tests := DiffManifests(order, before, between);
    var implementation := DiffManifests(order, between, after);
    r := JudgePhases(m, s, tests, implementation);
    VerdictOnTrees(m, order, s, tests, implementation, before, between, after, r);
    if r.Ok? {
      var cumulative := DiffManifests(order, before, after);
      ValidPhasesCompose(m, order, s, before, between, after, tests, implementation, cumulative);
      r := Ok(ExcludeDispute(cumulative));
    }
    assert Judged(m, s, tests, implementation, r);
  }
}
