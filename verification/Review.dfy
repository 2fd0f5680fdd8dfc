/** Which scanner findings a change introduced: the counted subtraction of src/review/results.ts. */
module Review {
  import opened Sorting

  datatype Severity = Critical | Warning

  datatype Position = Position(line: nat, column: nat)

  /** What the review reports about one finding. */
  datatype Finding = Finding(ruleId: string, path: string, severity: Severity, start: Position, end: Position)

  datatype Side = Before | After

  /** A scanner result tied to its side and matched text; the text stands for its SHA-256. */
  datatype Normalized = Normalized(finding: Finding, side: Side, text: string)

  datatype Identity = Identity(ruleId: string, path: string, text: string)

  function Identify(n: Normalized): Identity {
    Identity(n.finding.ruleId, n.finding.path, n.text)
  }

  // ---------------------------------------------------------------- the order findings are listed in

  /** `localeCompare` on paths and on rule ids, as any injective rankings. */
  datatype Collation = Collation(paths: string -> real, rules: string -> real)

  ghost predicate Injective(c: Collation) {
    && (forall p, q :: c.paths(p) == c.paths(q) ==> p == q)
    && (forall p, q :: c.rules(p) == c.rules(q) ==> p == q)
  }

  function Keys(c: Collation, f: Finding): seq<real> {
    [if f.severity.Critical? then 0.0 else 1.0,
     c.paths(f.path),
     f.start.line as real, f.start.column as real,
     f.end.line as real, f.end.column as real,
     c.rules(f.ruleId)]
  }

  /** The first difference that is not zero, as a chain of `||` gives it. */
  function FirstDifference(a: seq<real>, b: seq<real>): real {
    if a == [] || b == [] then 0.0
    else if a[0] != b[0] then a[0] - b[0]
    else FirstDifference(a[1..], b[1..])
  }

  function Compare(c: Collation, left: Finding, right: Finding): real {
    FirstDifference(Keys(c, left), Keys(c, right))
  }

  function Listed(c: Collation): (Finding, Finding) -> bool {
    (a, b) => Compare(c, a, b) <= 0.0
  }

  function NormalizedOrder(c: Collation): (Normalized, Normalized) -> bool {
    (a: Normalized, b: Normalized) => Listed(c)(a.finding, b.finding)
  }

  lemma {:induction false} DifferenceIsAntisymmetric(a: seq<real>, b: seq<real>)
    requires |a| == |b|
    ensures FirstDifference(a, b) == -FirstDifference(b, a)
    ensures FirstDifference(a, b) == 0.0 ==> a == b
  {
    if a != [] && a[0] == b[0] {
      DifferenceIsAntisymmetric(a[1..], b[1..]);
      assert a == [a[0]] + a[1..] && b == [b[0]] + b[1..];
    }
  }

  lemma {:induction false} DifferenceIsTransitive(a: seq<real>, b: seq<real>, d: seq<real>)
    requires |a| == |b| == |d|
    requires FirstDifference(a, b) <= 0.0 && FirstDifference(b, d) <= 0.0
    ensures FirstDifference(a, d) <= 0.0
  {
    if a != [] && a[0] == b[0] == d[0] {
      DifferenceIsTransitive(a[1..], b[1..], d[1..]);
    }
  }

  /** Critical findings first, then by path, by position, and by rule. */
  predicate InOrder(c: Collation, a: Finding, b: Finding) {
    if a.severity != b.severity then a.severity.Critical?
    else if c.paths(a.path) != c.paths(b.path) then c.paths(a.path) < c.paths(b.path)
    else if a.start.line != b.start.line then a.start.line < b.start.line
    else if a.start.column != b.start.column then a.start.column < b.start.column
    else if a.end.line != b.end.line then a.end.line < b.end.line
    else if a.end.column != b.end.column then a.end.column < b.end.column
    else c.rules(a.ruleId) <= c.rules(b.ruleId)
  }

  lemma Step(a: seq<real>, b: seq<real>)
    requires a != [] && b != []
    ensures a[0] != b[0] ==> FirstDifference(a, b) == a[0] - b[0]
    ensures a[0] == b[0] ==> FirstDifference(a, b) == FirstDifference(a[1..], b[1..])
  {
  }

  lemma ListedMeans(c: Collation, a: Finding, b: Finding)
    ensures Listed(c)(a, b) <==> InOrder(c, a, b)
  {
    var k, l := Keys(c, a), Keys(c, b);
    Step(k, l);
    Step(k[1..], l[1..]);
    Step(k[1..][1..], l[1..][1..]);
    Step(k[1..][1..][1..], l[1..][1..][1..]);
    Step(k[1..][1..][1..][1..], l[1..][1..][1..][1..]);
    Step(k[1..][1..][1..][1..][1..], l[1..][1..][1..][1..][1..]);
    Step(k[1..][1..][1..][1..][1..][1..], l[1..][1..][1..][1..][1..][1..]);
    assert k[1..][1..][1..][1..][1..][1..][1..] == [];
  }

  lemma CompareIsTotal(c: Collation)
    ensures TotalPreorder(Listed(c)) && TotalPreorder(NormalizedOrder(c))
  {
    forall a, b ensures Listed(c)(a, b) || Listed(c)(b, a) {
      DifferenceIsAntisymmetric(Keys(c, a), Keys(c, b));
    }
    forall a, b, d | Listed(c)(a, b) && Listed(c)(b, d) ensures Listed(c)(a, d) {
      DifferenceIsTransitive(Keys(c, a), Keys(c, b), Keys(c, d));
    }
    assert forall a: Normalized, b: Normalized :: Listed(c)(a.finding, b.finding) || Listed(c)(b.finding, a.finding);
  }

  /** Two findings that tie are the same finding, so only the matched text can differ. */
  lemma ListedBothWays(c: Collation, a: Finding, b: Finding)
    requires Injective(c) && Listed(c)(a, b) && Listed(c)(b, a)
    ensures a == b
  {
    var k, l := Keys(c, a), Keys(c, b);
    DifferenceIsAntisymmetric(k, l);
    assert k[0] == l[0] && k[1] == l[1] && k[2] == l[2] && k[3] == l[3] && k[4] == l[4] && k[5] == l[5] && k[6] == l[6];
  }

  // ---------------------------------------------------------------- what subtraction means

  function HasIdentity(id: Identity): Normalized -> bool {
    (n: Normalized) => Identify(n) == id
  }

  function OnSide(side: Side): Normalized -> bool {
    (n: Normalized) => n.side == side
  }

  function Occurrences(s: seq<Normalized>, id: Identity): nat {
    |Filter(s, HasIdentity(id))|
  }

  /** A finding counts as introduced once every finding of its identity from before has been used up. */
  function Introduced(before: seq<Normalized>, after: seq<Normalized>): seq<Normalized> {
    if after == [] then []
    else
      var front, last := after[..|after| - 1], after[|after| - 1];
      Introduced(before, front)
      + if Occurrences(front, Identify(last)) >= Occurrences(before, Identify(last)) then [last] else []
  }

  function Public(s: seq<Normalized>): (r: seq<Finding>)
    ensures |r| == |s| && forall i | 0 <= i < |s| :: r[i] == s[i].finding
  {
    seq(|s|, i requires 0 <= i < |s| => s[i].finding)
  }

  /** What the review must report for a scan. */
  function Reported(c: Collation, scan: seq<Normalized>): seq<Finding> {
    Public(Introduced(Filter(scan, OnSide(Before)), Sort(Filter(scan, OnSide(After)), NormalizedOrder(c))))
  }

  function Credit(counts: map<Identity, nat>, id: Identity): nat {
    if id in counts then counts[id] else 0
  }

  lemma IntroducedAppend(before: seq<Normalized>, after: seq<Normalized>, n: Normalized)
    ensures var used := Occurrences(after, Identify(n)) >= Occurrences(before, Identify(n));
            && (used ==> Introduced(before, after + [n]) == Introduced(before, after) + [n])
            && (!used ==> Introduced(before, after + [n]) == Introduced(before, after))
  {
    assert (after + [n])[..|after|] == after;
    assert Introduced(before, after) + [] == Introduced(before, after);
  }

  lemma {:induction false} IntroducedMember(before: seq<Normalized>, after: seq<Normalized>, n: Normalized)
    requires n in Introduced(before, after)
    ensures n in after
  {
    var front, last := after[..|after| - 1], after[|after| - 1];
    assert after == front + [last];
    IntroducedAppend(before, front, last);
    if n != last {
      IntroducedMember(before, front, n);
    }
  }

  /** `counts` holds how many findings of each identity `s` has. */
  ghost predicate Tallied(counts: map<Identity, nat>, s: seq<Normalized>) {
    forall id :: Credit(counts, id) == Occurrences(s, id)
  }

  /** `counts` holds how many findings of each identity from before are still unmatched. */
  ghost predicate Unmatched(counts: map<Identity, nat>, before: seq<Normalized>, after: seq<Normalized>) {
    forall id :: Credit(counts, id) ==
      if Occurrences(after, id) >= Occurrences(before, id) then 0
      else Occurrences(before, id) - Occurrences(after, id)
  }

  lemma TallyOne(counts: map<Identity, nat>, s: seq<Normalized>, n: Normalized)
    requires Tallied(counts, s)
    ensures Tallied(counts[Identify(n) := Credit(counts, Identify(n)) + 1], s + [n])
  {
    var after := counts[Identify(n) := Credit(counts, Identify(n)) + 1];
    forall id ensures Credit(after, id) == Occurrences(s + [n], id) {
      FilterAppend(s, HasIdentity(id), n);
      assert Credit(counts, id) == Occurrences(s, id);
    }
  }

  lemma MatchOne(counts: map<Identity, nat>, before: seq<Normalized>, after: seq<Normalized>, n: Normalized)
    requires Unmatched(counts, before, after)
    ensures var left := Credit(counts, Identify(n));
            Unmatched(if left > 0 then counts[Identify(n) := left - 1] else counts, before, after + [n])
  {
    var left := Credit(counts, Identify(n));
    var next := if left > 0 then counts[Identify(n) := left - 1] else counts;
    forall id ensures Credit(next, id) == if Occurrences(after + [n], id) >= Occurrences(before, id) then 0
                                          else Occurrences(before, id) - Occurrences(after + [n], id)
    {
      FilterAppend(after, HasIdentity(id), n);
      assert Credit(counts, id) == if Occurrences(after, id) >= Occurrences(before, id) then 0
                                   else Occurrences(before, id) - Occurrences(after, id);
    }
  }

  /** How many findings of each identity there were before the change. */
  method CountBaseline(scan: seq<Normalized>) returns (counts: map<Identity, nat>)
    ensures Tallied(counts, Filter(scan, OnSide(Before)))
  {
    counts := map[];
    ghost var seen: seq<Normalized> := [];
    for i := 0 to |scan|
      invariant seen == Filter(scan[..i], OnSide(Before))
      invariant Tallied(counts, seen)
    {
      assert scan[..i + 1] == scan[..i] + [scan[i]];
      FilterAppend(scan[..i], OnSide(Before), scan[i]);
      if scan[i].side == Before {
        var key := Identify(scan[i]);
        TallyOne(counts, seen, scan[i]);
        counts := counts[key := Credit(counts, key) + 1];
        seen := seen + [scan[i]];
      }
    }
    assert scan[..|scan|] == scan;
  }

  /** One step of the subtraction: the finding is absorbed while credit is left, and kept otherwise. */
  lemma AbsorbOne(counts: map<Identity, nat>, before: seq<Normalized>, after: seq<Normalized>, n: Normalized)
    requires Unmatched(counts, before, after)
    ensures var left := Credit(counts, Identify(n));
            if left > 0 then
              && Unmatched(counts[Identify(n) := left - 1], before, after + [n])
              && Introduced(before, after + [n]) == Introduced(before, after)
            else
              && Unmatched(counts, before, after + [n])
              && Introduced(before, after + [n]) == Introduced(before, after) + [n]
  {
    MatchOne(counts, before, after, n);
    IntroducedAppend(before, after, n);
    var id := Identify(n);
    assert Credit(counts, id) == if Occurrences(after, id) >= Occurrences(before, id) then 0
                                 else Occurrences(before, id) - Occurrences(after, id);
  }

  lemma PublicAppend(s: seq<Normalized>, n: Normalized)
    ensures Public(s + [n]) == Public(s) + [n.finding]
  {
  }

  lemma NothingSeen(counts: map<Identity, nat>, before: seq<Normalized>)
    requires Tallied(counts, before)
    ensures Unmatched(counts, before, [])
  {
    forall id ensures Credit(counts, id) == if Occurrences([], id) >= Occurrences(before, id) then 0
                                            else Occurrences(before, id) - Occurrences([], id)
    {
      assert Credit(counts, id) == Occurrences(before, id);
    }
  }

  /** Lets each finding from before absorb one sorted finding of its identity from after, and keeps the rest. */
  method Unabsorbed(counts: map<Identity, nat>, ghost before: seq<Normalized>, after: seq<Normalized>)
    returns (findings: seq<Finding>)
    requires Tallied(counts, before)
    ensures findings == Public(Introduced(before, after))
  {
    var left := counts;
    findings := [];
    ghost var seen: seq<Normalized>, kept: seq<Normalized> := [], [];
    NothingSeen(left, before);
    for i := 0 to |after|
      invariant seen == after[..i] && Unmatched(left, before, seen)
      invariant kept == Introduced(before, seen) && findings == Public(kept)
    {
      var key := Identify(after[i]);
      var baseline := Credit(left, key);
      AbsorbOne(left, before, seen, after[i]);
      if baseline > 0 {
        left := left[key := baseline - 1];
      } else {
        PublicAppend(kept, after[i]);
        findings := findings + [after[i].finding];
        kept := kept + [after[i]];
      }
      assert after[..i + 1] == seen + [after[i]];
      seen := seen + [after[i]];
    }
    assert after[..|after|] == after;
  }

  // ---------------------------------------------------------------- counts, and which ones are kept

  function Surplus(after: nat, before: nat): nat {
    if before <= after then after - before else 0
  }

  /** Everything after the first `n`. */
  function AllBut(s: seq<Normalized>, n: nat): (r: seq<Normalized>)
    ensures |r| == Surplus(|s|, n)
  {
    if n <= |s| then s[n..] else []
  }

  lemma AllButAppend(s: seq<Normalized>, n: nat, x: Normalized)
    ensures n <= |s| ==> AllBut(s + [x], n) == AllBut(s, n) + [x]
    ensures n > |s| ==> AllBut(s + [x], n) == AllBut(s, n)
  {
    if n <= |s| {
      assert (s + [x])[n..] == s[n..] + [x];
    } else if n == |s| + 1 {
      assert (s + [x])[n..] == [];
    }
  }

  lemma KeptOneMore(before: seq<Normalized>, front: seq<Normalized>, last: Normalized, id: Identity)
    requires Filter(Introduced(before, front), HasIdentity(id))
             == AllBut(Filter(front, HasIdentity(id)), Occurrences(before, id))
    ensures Filter(Introduced(before, front + [last]), HasIdentity(id))
            == AllBut(Filter(front + [last], HasIdentity(id)), Occurrences(before, id))
  {
    IntroducedAppend(before, front, last);
    FilterAppend(front, HasIdentity(id), last);
    FilterAppend(Introduced(before, front), HasIdentity(id), last);
    AllButAppend(Filter(front, HasIdentity(id)), Occurrences(before, id), last);
  }

  /** For each identity exactly the later occurrences are kept, after as many as there were before. */
  lemma {:induction false} LaterOnesAreKept(before: seq<Normalized>, after: seq<Normalized>, id: Identity)
    ensures Filter(Introduced(before, after), HasIdentity(id))
            == AllBut(Filter(after, HasIdentity(id)), Occurrences(before, id))
  {
    if after != [] {
      var front, last := after[..|after| - 1], after[|after| - 1];
      LaterOnesAreKept(before, front, id);
      assert after == front + [last];
      KeptOneMore(before, front, last, id);
    }
  }

  /** The number of reported findings of an identity is how many more there are after than before. */
  lemma {:induction false} CountIsTheDifference(before: seq<Normalized>, after: seq<Normalized>, id: Identity)
    ensures Occurrences(Introduced(before, after), id) == Surplus(Occurrences(after, id), Occurrences(before, id))
  {
    LaterOnesAreKept(before, after, id);
  }

  // ---------------------------------------------------------------- the report is sorted

  lemma {:induction false} IntroducedIsSorted(c: Collation, before: seq<Normalized>, after: seq<Normalized>)
    requires Sorted(after, NormalizedOrder(c))
    ensures Sorted(Introduced(before, after), NormalizedOrder(c))
  {
    if after != [] {
      var front, last := after[..|after| - 1], after[|after| - 1];
      IntroducedIsSorted(c, before, front);
      assert after == front + [last];
      IntroducedAppend(before, front, last);
      forall n | n in Introduced(before, front) ensures NormalizedOrder(c)(n, last) {
        IntroducedMember(before, front, n);
        var i :| 0 <= i < |front| && front[i] == n;
        assert NormalizedOrder(c)(after[i], after[|after| - 1]);
      }
    }
  }

  lemma ReportIsSorted(c: Collation, scan: seq<Normalized>)
    ensures Sorted(Reported(c, scan), Listed(c))
  {
    var after := Sort(Filter(scan, OnSide(After)), NormalizedOrder(c));
    CompareIsTotal(c);
    SortSorted(Filter(scan, OnSide(After)), NormalizedOrder(c));
    var kept := Introduced(Filter(scan, OnSide(Before)), after);
    IntroducedIsSorted(c, Filter(scan, OnSide(Before)), after);
    forall i, j | 0 <= i < j < |kept| ensures Listed(c)(Public(kept)[i], Public(kept)[j]) {
      assert NormalizedOrder(c)(kept[i], kept[j]);
    }
  }

  // ---------------------------------------------------------------- the review of a scan, on the scan's own fields

  /** How many findings of one side have the rule, the path and the matched text. */
  function Count(s: seq<Normalized>, side: Side, rule: string, path: string, text: string): nat {
    if s == [] then 0
    else
      var front, last := s[..|s| - 1], s[|s| - 1];
      Count(front, side, rule, path, text)
      + if last.side == side && last.finding.ruleId == rule && last.finding.path == path && last.text == text then 1 else 0
  }

  lemma {:induction false} CountIsOccurrences(s: seq<Normalized>, side: Side, rule: string, path: string, text: string)
    ensures Count(s, side, rule, path, text) == Occurrences(Filter(s, OnSide(side)), Identity(rule, path, text))
  {
    if s != [] {
      var front, last := s[..|s| - 1], s[|s| - 1];
      CountIsOccurrences(front, side, rule, path, text);
      assert s == front + [last];
      FilterAppend(front, OnSide(side), last);
      FilterAppend(Filter(front, OnSide(side)), HasIdentity(Identity(rule, path, text)), last);
    }
  }

  lemma OccurrencesPermute(s: seq<Normalized>, t: seq<Normalized>, id: Identity)
    requires multiset(s) == multiset(t)
    ensures Occurrences(s, id) == Occurrences(t, id)
  {
    FilterPermutes(s, t, HasIdentity(id));
    assert |multiset(Filter(s, HasIdentity(id)))| == |multiset(Filter(t, HasIdentity(id)))|;
  }

  /** What is kept of the sorted findings from after, counted on the scan. */
  lemma KeptCounts(c: Collation, scan: seq<Normalized>, kept: seq<Normalized>, rule: string, path: string, text: string)
    requires kept == Introduced(Filter(scan, OnSide(Before)), Sort(Filter(scan, OnSide(After)), NormalizedOrder(c)))
    requires forall n | n in kept :: n.side == After
    ensures
      var before, after := Count(scan, Before, rule, path, text), Count(scan, After, rule, path, text);
      Count(kept, After, rule, path, text) == if after > before then after - before else 0
  {
    var id := Identity(rule, path, text);
    CountIsOccurrences(scan, Before, rule, path, text);
    CountIsOccurrences(scan, After, rule, path, text);
    CountIsOccurrences(kept, After, rule, path, text);
    FilterIsIdentity(kept, OnSide(After));
    OccurrencesPermute(Filter(scan, OnSide(After)), Sort(Filter(scan, OnSide(After)), NormalizedOrder(c)), id);
    CountIsTheDifference(Filter(scan, OnSide(Before)), Sort(Filter(scan, OnSide(After)), NormalizedOrder(c)), id);
  }

  lemma KeptFromAfter(c: Collation, scan: seq<Normalized>, n: Normalized)
    requires n in Introduced(Filter(scan, OnSide(Before)), Sort(Filter(scan, OnSide(After)), NormalizedOrder(c)))
    ensures n in scan && n.side == After
  {
    var sorted := Sort(Filter(scan, OnSide(After)), NormalizedOrder(c));
    IntroducedMember(Filter(scan, OnSide(Before)), sorted, n);
    InMultiset(sorted, n);
    InMultiset(Filter(scan, OnSide(After)), n);
    FilterMembers(scan, OnSide(After), n);
  }

  /**
   * What the review reports: findings of the scan from after the change, in order, and of each rule, path and
   * matched text as many as there are more after than before.
   */
  method Subtract(c: Collation, scan: seq<Normalized>) returns (findings: seq<Finding>, ghost kept: seq<Normalized>)
    ensures findings == Reported(c, scan)
    ensures |findings| == |kept| && forall i | 0 <= i < |kept| :: findings[i] == kept[i].finding
    ensures forall n | n in kept :: n in scan && n.side == After
    ensures forall rule, path, text ::
              var before, after := Count(scan, Before, rule, path, text), Count(scan, After, rule, path, text);
              Count(kept, After, rule, path, text) == if after > before then after - before else 0
    ensures forall i, j | 0 <= i < j < |findings| :: InOrder(c, findings[i], findings[j])
  {
    var counts := CountBaseline(scan);
    var after := Sort(Filter(scan, OnSide(After)), NormalizedOrder(c));
    findings := Unabsorbed(counts, Filter(scan, OnSide(Before)), after);
    kept := Introduced(Filter(scan, OnSide(Before)), after);
    forall n | n in kept ensures n in scan && n.side == After {
      KeptFromAfter(c, scan, n);
    }
    forall rule, path, text
      ensures var before, after := Count(scan, Before, rule, path, text), Count(scan, After, rule, path, text);
              Count(kept, After, rule, path, text) == if after > before then after - before else 0
    {
      KeptCounts(c, scan, kept, rule, path, text);
    }
    ReportIsSorted(c, scan);
    forall i, j | 0 <= i < j < |findings| ensures InOrder(c, findings[i], findings[j]) {
      ListedMeans(c, findings[i], findings[j]);
    }
  }

  // ---------------------------------------------------------------- the scanner's listing order does not show

  /** Sorting leaves no choice within one identity: findings of the same identity that tie are equal. */
  lemma SameWithinIdentity(c: Collation, a: seq<Normalized>, b: seq<Normalized>, id: Identity)
    requires Injective(c) && multiset(a) == multiset(b)
    requires Sorted(a, NormalizedOrder(c)) && Sorted(b, NormalizedOrder(c))
    requires forall n | n in a :: n.side == After
    ensures Filter(a, HasIdentity(id)) == Filter(b, HasIdentity(id))
  {
    var x, y := Filter(a, HasIdentity(id)), Filter(b, HasIdentity(id));
    FilterPermutes(a, b, HasIdentity(id));
    FilterIsSorted(a, HasIdentity(id), NormalizedOrder(c));
    FilterIsSorted(b, HasIdentity(id), NormalizedOrder(c));
    forall m, n | m in x && n in x && NormalizedOrder(c)(m, n) && NormalizedOrder(c)(n, m) ensures m == n {
      FilterMembers(a, HasIdentity(id), m);
      FilterMembers(a, HasIdentity(id), n);
      ListedBothWays(c, m.finding, n.finding);
    }
    SortedUnique(x, y, NormalizedOrder(c));
  }

  lemma SameIntroduced(c: Collation, before: seq<Normalized>, before': seq<Normalized>,
                       after: seq<Normalized>, after': seq<Normalized>)
    requires Injective(c) && multiset(before) == multiset(before') && multiset(after) == multiset(after')
    requires Sorted(after, NormalizedOrder(c)) && Sorted(after', NormalizedOrder(c))
    requires forall n | n in after :: n.side == After
    ensures multiset(Introduced(before, after)) == multiset(Introduced(before', after'))
  {
    forall x ensures multiset(Introduced(before, after))[x] == multiset(Introduced(before', after'))[x] {
      var id := Identify(x);
      FilterPermutes(before, before', HasIdentity(id));
      assert |multiset(Filter(before, HasIdentity(id)))| == Occurrences(before, id);
      assert |multiset(Filter(before', HasIdentity(id)))| == Occurrences(before', id);
      SameWithinIdentity(c, after, after', id);
      LaterOnesAreKept(before, after, id);
      LaterOnesAreKept(before', after', id);
      FilterCounts(Introduced(before, after), HasIdentity(id), x);
      FilterCounts(Introduced(before', after'), HasIdentity(id), x);
    }
  }

  function Shows(f: Finding): Normalized -> bool {
    (n: Normalized) => n.finding == f
  }

  lemma {:induction false} PublicCounts(s: seq<Normalized>, f: Finding)
    ensures multiset(Public(s))[f] == |Filter(s, Shows(f))|
  {
    if s != [] {
      var front, last := s[..|s| - 1], s[|s| - 1];
      PublicCounts(front, f);
      assert s == front + [last];
      FilterAppend(front, Shows(f), last);
      assert Public(s) == Public(front) + [last.finding];
    }
  }

  lemma PublicPermutes(a: seq<Normalized>, b: seq<Normalized>)
    requires multiset(a) == multiset(b)
    ensures multiset(Public(a)) == multiset(Public(b))
  {
    forall f ensures multiset(Public(a))[f] == multiset(Public(b))[f] {
      PublicCounts(a, f);
      PublicCounts(b, f);
      FilterPermutes(a, b, Shows(f));
      assert |multiset(Filter(a, Shows(f)))| == |multiset(Filter(b, Shows(f)))|;
    }
  }

  /** The report is the same however the scanner listed its results. */
  lemma ListingOrderIrrelevant(c: Collation, scan: seq<Normalized>, scan': seq<Normalized>)
    requires Injective(c) && multiset(scan) == multiset(scan')
    ensures Reported(c, scan) == Reported(c, scan')
  {
    var le := NormalizedOrder(c);
    var after, after' := Sort(Filter(scan, OnSide(After)), le), Sort(Filter(scan', OnSide(After)), le);
    FilterPermutes(scan, scan', OnSide(Before));
    FilterPermutes(scan, scan', OnSide(After));
    CompareIsTotal(c);
    SortSorted(Filter(scan, OnSide(After)), le);
    SortSorted(Filter(scan', OnSide(After)), le);
    forall n | n in after ensures n.side == After {
      InMultiset(after, n);
      InMultiset(Filter(scan, OnSide(After)), n);
      FilterMembers(scan, OnSide(After), n);
    }
    var before, before' := Filter(scan, OnSide(Before)), Filter(scan', OnSide(Before));
    SameIntroduced(c, before, before', after, after');
    PublicPermutes(Introduced(before, after), Introduced(before', after'));
    ReportIsSorted(c, scan);
    ReportIsSorted(c, scan');
    forall x, y | Listed(c)(x, y) && Listed(c)(y, x) ensures x == y {
      ListedBothWays(c, x, y);
    }
    SortedUnique(Reported(c, scan), Reported(c, scan'), Listed(c));
  }
}
