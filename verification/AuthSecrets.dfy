/** Which strings of an `auth.json` count as secrets (`walk` and `collectSecrets` of src/artifacts/redact.ts). */
module AuthSecrets {
  import opened Wrappers
  import opened Redact

  /** `Scalar` stands for numbers, booleans and null, which hold no text. */
  datatype Json = Text(value: string) | List(items: seq<Json>) | Object(fields: seq<(string, Json)>) | Scalar

  // ---------------------------------------------------------------- which fields hold secrets

  function Lower(c: char): char {
    if 'A' <= c <= 'Z' then (c as int + 32) as char else c
  }

  function Lowered(text: string): (r: string)
    ensures |r| == |text| && forall k | 0 <= k < |text| :: r[k] == Lower(text[k])
  {
    seq(|text|, k requires 0 <= k < |text| => Lower(text[k]))
  }

  /** `SECRET_KEYS`, a match of one of five words anywhere, in either case. */
  predicate IsSecretKey(name: string) {
    var low := Lowered(name);
    exists i | 0 <= i <= |low| ::
      "token" <= low[i..] || "secret" <= low[i..] || "key" <= low[i..] || "password" <= low[i..] || "authorization" <= low[i..]
  }

  /** The word stands in the name from position `i` on, each letter small or capital. */
  ghost predicate Spells(name: string, word: string, i: int) {
    && 0 <= i <= |name| - |word|
    && forall k | 0 <= k < |word| :: name[i + k] == word[k] || ('A' <= name[i + k] <= 'Z' && name[i + k] as int + 32 == word[k] as int)
  }

  ghost predicate NamesSecret(name: string) {
    exists i ::
      || Spells(name, "token", i) || Spells(name, "secret", i) || Spells(name, "key", i)
      || Spells(name, "password", i) || Spells(name, "authorization", i)
  }

  lemma SpellsMeans(name: string, word: string, i: nat)
    requires i <= |name| && forall k | 0 <= k < |word| :: 'a' <= word[k] <= 'z'
    ensures Spells(name, word, i) <==> word <= Lowered(name)[i..]
  {
    var low := Lowered(name)[i..];
    if Spells(name, word, i) {
      forall k | 0 <= k < |word| ensures low[k] == word[k] {
        assert low[k] == Lower(name[i + k]);
      }
    }
    if word <= low {
      forall k | 0 <= k < |word|
        ensures name[i + k] == word[k] || ('A' <= name[i + k] <= 'Z' && name[i + k] as int + 32 == word[k] as int)
      {
        assert word[k] == low[k] == Lower(name[i + k]);
      }
    }
  }

  lemma SecretKeyMeans(name: string)
    ensures IsSecretKey(name) <==> NamesSecret(name)
  {
    forall i: nat | i <= |name|
      ensures Spells(name, "token", i) <==> "token" <= Lowered(name)[i..]
      ensures Spells(name, "secret", i) <==> "secret" <= Lowered(name)[i..]
      ensures Spells(name, "key", i) <==> "key" <= Lowered(name)[i..]
      ensures Spells(name, "password", i) <==> "password" <= Lowered(name)[i..]
      ensures Spells(name, "authorization", i) <==> "authorization" <= Lowered(name)[i..]
    {
      SpellsMeans(name, "token", i);
      SpellsMeans(name, "secret", i);
      SpellsMeans(name, "key", i);
      SpellsMeans(name, "password", i);
      SpellsMeans(name, "authorization", i);
    }
  }

  // ---------------------------------------------------------------- the walk

  ghost predicate Holds(value: Json, keyed: bool, s: string) {
    match value
    case Text(t) => s == t && keyed && |s| >= 8
    case List(items) => exists k | 0 <= k < |items| :: Holds(items[k], keyed, s)
    case Object(fields) => exists k | 0 <= k < |fields| :: Holds(fields[k].1, keyed || NamesSecret(fields[k].0), s)
    case Scalar => false
  }

  /** Adds to `found` every long enough string that is under a secret key, or all of them when already under one. */
  method Walk(value: Json, found: set<string>, keyed: bool) returns (r: set<string>)
    ensures forall s :: s in r <==> s in found || Holds(value, keyed, s)
    decreases value
  {
    r := found;
    match value {
      case Text(s) =>
        if keyed && |s| >= MIN_SECRET_LENGTH {
          r := r + {s};
        }
      case List(items) =>
        for i := 0 to |items|
          invariant forall s :: s in r <==> s in found || exists k | 0 <= k < i :: Holds(items[k], keyed, s)
        {
          r := Walk(items[i], r, keyed);
        }
      case Object(fields) =>
        for i := 0 to |fields|
          invariant forall s :: s in r <==>
                      s in found || exists k | 0 <= k < i :: Holds(fields[k].1, keyed || NamesSecret(fields[k].0), s)
        {
          SecretKeyMeans(fields[i].0);
          r := Walk(fields[i].1, r, keyed || IsSecretKey(fields[i].0));
        }
      case Scalar =>
    }
  }

  // ---------------------------------------------------------------- the same, by paths into the document

  /** The value reached by following positions from the root. */
  function At(value: Json, path: seq<nat>): Option<Json> {
    if path == [] then Some(value)
    else match value
      case List(items) => if path[0] < |items| then At(items[path[0]], path[1..]) else None
      case Object(fields) => if path[0] < |fields| then At(fields[path[0]].1, path[1..]) else None
      case _ => None
  }

  /** Some field name on the way down is a secret key. */
  ghost predicate UnderSecretKey(value: Json, path: seq<nat>) {
    path != [] && match value
      case List(items) => path[0] < |items| && UnderSecretKey(items[path[0]], path[1..])
      case Object(fields) =>
        && path[0] < |fields|
        && (NamesSecret(fields[path[0]].0) || UnderSecretKey(fields[path[0]].1, path[1..]))
      case _ => false
  }

  ghost predicate SecretAt(value: Json, path: seq<nat>, keyed: bool, s: string) {
    At(value, path) == Some(Text(s)) && |s| >= 8 && (keyed || UnderSecretKey(value, path))
  }

  lemma {:induction false} PathOf(value: Json, keyed: bool, s: string) returns (path: seq<nat>)
    requires Holds(value, keyed, s)
    ensures SecretAt(value, path, keyed, s)
    decreases value
  {
    match value {
      case Text(_) => path := [];
      case List(items) =>
        var k: nat :| k < |items| && Holds(items[k], keyed, s);
        var rest := PathOf(items[k], keyed, s);
        path := [k] + rest;
        assert path[1..] == rest;
      case Object(fields) =>
        var k: nat :| k < |fields| && Holds(fields[k].1, keyed || NamesSecret(fields[k].0), s);
        var rest := PathOf(fields[k].1, keyed || NamesSecret(fields[k].0), s);
        path := [k] + rest;
        assert path[1..] == rest;
    }
  }

  lemma {:induction false} FoundAlong(value: Json, path: seq<nat>, keyed: bool, s: string)
    requires SecretAt(value, path, keyed, s)
    ensures Holds(value, keyed, s)
    decreases path
  {
    if path != [] {
      match value {
        case List(items) =>
          FoundAlong(items[path[0]], path[1..], keyed, s);
        case Object(fields) =>
          FoundAlong(fields[path[0]].1, path[1..], keyed || NamesSecret(fields[path[0]].0), s);
      }
    }
  }

  /** A string is collected exactly when it is long enough and some path to it passes a secret key. */
  method CollectSecrets(document: Option<Json>) returns (found: set<string>)
    ensures document.None? ==> found == {}
    ensures document.Some? ==>
              forall s :: s in found <==> exists path :: SecretAt(document.value, path, false, s)
  {
    found := {};
    if document.Some? {
      found := Walk(document.value, {}, false);
      forall s ensures s in found <==> exists path :: SecretAt(document.value, path, false, s) {
        if Holds(document.value, false, s) {
          var path := PathOf(document.value, false, s);
          assert SecretAt(document.value, path, false, s);
        } else if path :| SecretAt(document.value, path, false, s) {
          FoundAlong(document.value, path, false, s);
        }
      }
    }
  }

  /** No output shows a string that some path under a secret key leads to, if no such string can meet the mask. */
  lemma NothingFromAuthIsShown(document: Json, secrets: seq<string>, text: string, path: seq<nat>, s: string)
    requires forall x :: x in secrets <==> exists p :: SecretAt(document, p, false, x)
    requires forall x | x in secrets :: Clear(x)
    requires SecretAt(document, path, false, s)
    ensures !Contains(Redacted(secrets, text), s)
  {
    assert s in secrets;
    RedactionLeavesNothing(secrets, text);
  }
}
