/** Scopes, frozen paths and the validation of one phase's diff (src/diff/validate.ts, src/verify/frozen.ts). */
module Validate {
  import opened Wrappers
  import opened SourceDiff

  /** `picomatch` and `escapesTree`, as any predicates. */
  datatype Matcher = Matcher(glob: (string, Path) -> bool, escapes: (Path, Path) -> bool)

  const DEPENDENCY_MANIFESTS: set<string> :=
    {"package.json", "package-lock.json", "npm-shrinkwrap.json", "yarn.lock", "pnpm-lock.yaml", "bun.lockb"}

  datatype Violation =
    | NoChanges
    | ClosureViolation(path: Path)
    | DependencyChange(path: Path)
    | UnsafeSymlink(path: Path)
    | OutOfScope(path: Path)

  datatype FrozenPhase = Tests | Implementation

  /** Some pattern selects the path, itself or as a directory above it. */
  predicate Matches(m: Matcher, path: Path, patterns: seq<string>) {
    exists i | 0 <= i < |patterns| :: m.glob(patterns[i], path) || HasPrefix(path, patterns[i] + "/")
  }

  lemma MatchesEither(m: Matcher, path: Path, a: seq<string>, b: seq<string>)
    ensures Matches(m, path, a + b) <==> Matches(m, path, a) || Matches(m, path, b)
  {
    if Matches(m, path, a) {
      var i :| 0 <= i < |a| && (m.glob(a[i], path) || HasPrefix(path, a[i] + "/"));
      assert (a + b)[i] == a[i];
    }
    if Matches(m, path, b) {
      var i :| 0 <= i < |b| && (m.glob(b[i], path) || HasPrefix(path, b[i] + "/"));
      assert (a + b)[|a| + i] == b[i];
    }
  }

  /** A path is in scope when a pattern is, or names a directory above it. */
  lemma MatchesMeans(m: Matcher, path: Path, patterns: seq<string>)
    ensures Matches(m, path, patterns)
            <==> exists pattern | pattern in patterns :: m.glob(pattern, path) || exists rest :: path == pattern + "/" + rest
  {
    if Matches(m, path, patterns) {
      var i :| 0 <= i < |patterns| && (m.glob(patterns[i], path) || HasPrefix(path, patterns[i] + "/"));
      UnderMeans(path, patterns[i]);
      assert patterns[i] in patterns;
      if !m.glob(patterns[i], path) {
        assert path == patterns[i] + "/" + path[|patterns[i]| + 1..];
      }
    }
    if pattern :| pattern in patterns && (m.glob(pattern, path) || exists rest :: path == pattern + "/" + rest) {
      var i :| 0 <= i < |patterns| && patterns[i] == pattern;
      if !m.glob(pattern, path) {
        var rest :| path == pattern + "/" + rest;
        assert HasPrefix(path, patterns[i] + "/");
      }
    }
  }

  function FrozenPathsForPhase(phase: FrozenPhase, closure: seq<string>, tests: seq<string>): seq<string> {
    if phase.Tests? then closure else closure + tests
  }

  // ---------------------------------------------------------------- dependency manifests, wherever they are

  /** The last segment of a path. */
  function BaseName(path: Path): string {
    if path == "" || path[|path| - 1] == '/' then ""
    else BaseName(path[..|path| - 1]) + [path[|path| - 1]]
  }

  /** The path is the name, or ends in a slash and the name. */
  ghost predicate EndsIn(path: Path, name: string) {
    path == name || exists dir :: path == dir + "/" + name
  }

  lemma {:induction false} LastSegment(dir: string, name: string)
    requires '/' !in name
    ensures BaseName(name) == name && BaseName(dir + "/" + name) == name
  {
    var path := dir + "/" + name;
    if name == "" {
      assert path[|path| - 1] == '/';
    } else {
      var front := name[..|name| - 1];
      assert '/' !in front;
      LastSegment(dir, front);
      assert path[..|path| - 1] == dir + "/" + front && path[|path| - 1] == name[|name| - 1];
      assert name == front + [name[|name| - 1]];
      assert name[|name| - 1] in name;
    }
  }

  lemma {:induction false} SegmentIsLast(path: Path)
    ensures '/' !in BaseName(path) && EndsIn(path, BaseName(path))
  {
    if path == "" {
    } else if path[|path| - 1] == '/' {
      assert path == path[..|path| - 1] + "/" + "";
    } else {
      var front, c := path[..|path| - 1], path[|path| - 1];
      SegmentIsLast(front);
      assert path == front + [c];
      if front != BaseName(front) {
        var dir :| front == dir + "/" + BaseName(front);
        assert path == dir + "/" + BaseName(path);
      }
    }
  }

  lemma BaseNameMeans(path: Path, name: string)
    requires '/' !in name
    ensures BaseName(path) == name <==> EndsIn(path, name)
  {
    SegmentIsLast(path);
    LastSegment("", name);
    if dir :| path == dir + "/" + name {
      LastSegment(dir, name);
    }
  }

  /** A manifest or a lockfile, in any directory. */
  ghost predicate IsDependencyManifest(path: Path) {
    || EndsIn(path, "package.json") || EndsIn(path, "package-lock.json") || EndsIn(path, "npm-shrinkwrap.json")
    || EndsIn(path, "yarn.lock") || EndsIn(path, "pnpm-lock.yaml") || EndsIn(path, "bun.lockb")
  }

  lemma ManifestMeans(path: Path)
    ensures BaseName(path) in DEPENDENCY_MANIFESTS <==> IsDependencyManifest(path)
  {
    BaseNameMeans(path, "package.json");
    BaseNameMeans(path, "package-lock.json");
    BaseNameMeans(path, "npm-shrinkwrap.json");
    BaseNameMeans(path, "yarn.lock");
    BaseNameMeans(path, "pnpm-lock.yaml");
    BaseNameMeans(path, "bun.lockb");
  }

  // ---------------------------------------------------------------- one phase's diff

  function LinkOf(c: Change): Option<Path> {
    if c.Deleted? then None else c.entry.link
  }

  /** The change leaves a link that points out of the tree. */
  predicate Escapes(m: Matcher, c: Change) {
    !c.Deleted? && c.entry.link.Some? && m.escapes(c.path, c.entry.link.value)
  }

  /** What is wrong with one change, dependency manifests first. */
  function Fault(m: Matcher, c: Change, scope: seq<string>): Option<Violation> {
    if BaseName(c.path) in DEPENDENCY_MANIFESTS then Some(DependencyChange(c.path))
    else if LinkOf(c).Some? && m.escapes(c.path, LinkOf(c).value) then Some(UnsafeSymlink(c.path))
    else if !Matches(m, c.path, scope) then Some(OutOfScope(c.path))
    else None
  }

  /** The violation names the change, and says the first of the three things that is wrong with it. */
  ghost predicate Blames(m: Matcher, v: Violation, c: Change, scope: seq<string>) {
    match v
    case DependencyChange(p) => p == c.path && IsDependencyManifest(p)
    case UnsafeSymlink(p) => p == c.path && !IsDependencyManifest(p) && Escapes(m, c)
    case OutOfScope(p) => p == c.path && !IsDependencyManifest(p) && !Escapes(m, c) && !Matches(m, p, scope)
    case _ => false
  }

  /** Nothing is wrong with the change, apart from being frozen perhaps. */
  ghost predicate Harmless(m: Matcher, c: Change, scope: seq<string>) {
    !IsDependencyManifest(c.path) && !Escapes(m, c) && Matches(m, c.path, scope)
  }

  lemma FaultMeans(m: Matcher, c: Change, scope: seq<string>)
    ensures Fault(m, c, scope).None? <==> Harmless(m, c, scope)
    ensures forall v :: Fault(m, c, scope) == Some(v) <==> Blames(m, v, c, scope)
  {
    ManifestMeans(c.path);
  }

  /** The error names the first frozen change, or else the first faulty one. */
  ghost predicate Explains(m: Matcher, v: Violation, changes: seq<Change>, scope: seq<string>, frozen: seq<string>) {
    if changes == [] then v == NoChanges
    else if exists c | c in changes :: Matches(m, c.path, frozen) then
      exists i | 0 <= i < |changes| ::
        v == ClosureViolation(changes[i].path) && Matches(m, changes[i].path, frozen)
        && forall k | 0 <= k < i :: !Matches(m, changes[k].path, frozen)
    else
      exists i | 0 <= i < |changes| ::
        Blames(m, v, changes[i], scope) && forall k | 0 <= k < i :: Harmless(m, changes[k], scope)
  }

  /** Nothing frozen, no dependency manifest, no escaping link, everything in scope. */
  ghost predicate Clean(m: Matcher, c: Change, scope: seq<string>, frozen: seq<string>) {
    !Matches(m, c.path, frozen) && Harmless(m, c, scope)
  }

  method ValidateChanges(m: Matcher, changes: seq<Change>, scope: seq<string>, frozen: seq<string>)
    returns (r: Result<seq<Change>, Violation>)
    ensures r.Ok? <==> changes != [] && forall c | c in changes :: Clean(m, c, scope, frozen)
    ensures r.Ok? ==> r.value == changes
    ensures r.Err? ==> Explains(m, r.error, changes, scope, frozen)
  {
    if changes == [] {
      return Err(NoChanges);
    }
    for i := 0 to |changes|
      invariant forall k | 0 <= k < i :: !Matches(m, changes[k].path, frozen)
    {
      if Matches(m, changes[i].path, frozen) {
        assert changes[i] in changes && !Clean(m, changes[i], scope, frozen);
        return Err(ClosureViolation(changes[i].path));
      }
    }
    for i := 0 to |changes|
      invariant forall k | 0 <= k < i :: Harmless(m, changes[k], scope)
    {
      var fault := Fault(m, changes[i], scope);
      FaultMeans(m, changes[i], scope);
      if fault.Some? {
        assert changes[i] in changes && !Clean(m, changes[i], scope, frozen);
        return Err(fault.value);
      }
    }
    return Ok(changes);
  }
}
