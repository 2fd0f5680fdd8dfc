/** Masking secrets in everything that is written out (src/artifacts/redact.ts). */
module Redact {
  import opened Sorting

  const REDACTED := "[redacted]"

  const MIN_SECRET_LENGTH := 8

  predicate OccursAt(text: string, s: string, i: int) {
    0 <= i <= |text| - |s| && text[i..i + |s|] == s
  }

  ghost predicate Contains(text: string, s: string) {
    exists i :: OccursAt(text, s, i)
  }

  // ---------------------------------------------------------------- split, join, and the replacement they make

  /** The pieces between the occurrences found from the left, each search starting after the last find. */
  function Split(text: string, s: string): (pieces: seq<string>)
    requires s != ""
    ensures pieces != []
  {
    if |text| < |s| then [text]
    else if s <= text then [""] + Split(text[|s|..], s)
    else
      var rest := Split(text[1..], s);
      [[text[0]] + rest[0]] + rest[1..]
  }

  function Join(pieces: seq<string>, glue: string): string
    requires pieces != []
  {
    if |pieces| == 1 then pieces[0] else pieces[0] + glue + Join(pieces[1..], glue)
  }

  function ReplaceAll(text: string, s: string): string
    requires s != ""
  {
    if |text| < |s| then text
    else if s <= text then REDACTED + ReplaceAll(text[|s|..], s)
    else [text[0]] + ReplaceAll(text[1..], s)
  }

  lemma SkipOne(text: string, a: string)
    requires |text| >= |a| > 0 && !(a <= text)
    ensures ReplaceAll(text, a) == [text[0]] + ReplaceAll(text[1..], a)
  {
  }

  lemma JoinMatch(rest: seq<string>, glue: string)
    requires rest != []
    ensures Join([""] + rest, glue) == glue + Join(rest, glue)
  {
    assert ([""] + rest)[1..] == rest;
    assert "" + glue == glue;
  }

  lemma JoinSkip(c: char, rest: seq<string>, glue: string)
    requires rest != []
    ensures Join([[c] + rest[0]] + rest[1..], glue) == [c] + Join(rest, glue)
  {
    var pieces := [[c] + rest[0]] + rest[1..];
    assert pieces[1..] == rest[1..];
    if |rest| > 1 {
      assert [c] + rest[0] + glue + Join(rest[1..], glue) == [c] + (rest[0] + glue + Join(rest[1..], glue));
    }
  }

  /** Splitting and joining replaces; joining with what was split on gives the text back. */
  lemma {:induction false} JoinAfterSplit(text: string, s: string)
    requires s != ""
    ensures Join(Split(text, s), REDACTED) == ReplaceAll(text, s)
    ensures Join(Split(text, s), s) == text
  {
    if |text| >= |s| {
      if s <= text {
        JoinAfterSplit(text[|s|..], s);
        JoinMatch(Split(text[|s|..], s), REDACTED);
        JoinMatch(Split(text[|s|..], s), s);
        assert text == s + text[|s|..];
      } else {
        JoinAfterSplit(text[1..], s);
        JoinSkip(text[0], Split(text[1..], s), REDACTED);
        JoinSkip(text[0], Split(text[1..], s), s);
        assert text == [text[0]] + text[1..];
      }
    }
  }

  predicate LongestFirst(a: string, b: string) {
    |a| >= |b|
  }

  predicate IsLong(s: string) {
    |s| >= MIN_SECRET_LENGTH
  }

  function LongEnough(secrets: seq<string>): (r: seq<string>)
    ensures forall s :: s in r <==> s in secrets && |s| >= MIN_SECRET_LENGTH
  {
    FilterMeans(secrets, IsLong);
    Filter(secrets, IsLong)
  }

  lemma OrderedMembers(secrets: seq<string>)
    ensures forall s :: s in Sort(LongEnough(secrets), LongestFirst) <==> s in secrets && |s| >= MIN_SECRET_LENGTH
  {
    forall s ensures s in Sort(LongEnough(secrets), LongestFirst) <==> s in secrets && |s| >= MIN_SECRET_LENGTH {
      InMultiset(Sort(LongEnough(secrets), LongestFirst), s);
      InMultiset(LongEnough(secrets), s);
    }
  }

  /** The secrets worth masking, in the order they are masked. */
  function Ordered(secrets: seq<string>): (r: seq<string>)
    ensures forall s | s in r :: |s| >= MIN_SECRET_LENGTH
  {
    OrderedMembers(secrets);
    Sort(LongEnough(secrets), LongestFirst)
  }

  function MaskAll(text: string, ordered: seq<string>): string
    requires forall s | s in ordered :: |s| >= MIN_SECRET_LENGTH
    decreases ordered
  {
    if ordered == [] then text
    else MaskAll(Join(Split(text, ordered[0]), REDACTED), ordered[1..])
  }

  function Redacted(secrets: seq<string>, text: string): string {
    MaskAll(text, Ordered(secrets))
  }

  // ---------------------------------------------------------------- secrets that cannot meet the mask

  /** Laid over the mask with its first character at position `j`, `s` agrees with it wherever both are defined. */
  ghost predicate Agrees(s: string, j: int) {
    forall i | 0 <= i < |s| && 0 <= i + j < |REDACTED| :: s[i] == REDACTED[i + j]
  }

  /** No occurrence of `s` can share a character with a mask. */
  ghost predicate Clear(s: string) {
    forall j | -|s| < j < |REDACTED| :: !Agrees(s, j)
  }

  predicate NoBrackets(s: string) {
    '[' !in s && ']' !in s
  }

  /** Among bracket-free secrets of the masked length, only the mask's own word meets the mask. */
  lemma ClearWithoutBrackets(s: string)
    requires NoBrackets(s) && |s| >= MIN_SECRET_LENGTH
    ensures Clear(s) <==> s != "redacted"
  {
    if s == "redacted" {
      assert Agrees(s, 1);
    } else {
      forall j | -|s| < j < |REDACTED| ensures !Agrees(s, j) {
        if j <= 0 {
          var i := -j;
          assert s[i] in s && s[i] != REDACTED[i + j];
        } else if 9 - j < |s| {
          var i := 9 - j;
          assert s[i] in s && s[i] != REDACTED[i + j];
        } else {
          assert s != REDACTED[1..9];
          var i :| 0 <= i < 8 && s[i] != REDACTED[1..9][i];
          assert s[i] != REDACTED[i + j];
        }
      }
    }
  }

  // ---------------------------------------------------------------- one replacement

  lemma Shift(text: string, s: string, k: nat)
    requires k <= |text| && Contains(text[k..], s)
    ensures Contains(text, s)
  {
    var i :| OccursAt(text[k..], s, i);
    assert OccursAt(text, s, i + k);
  }

  lemma {:induction false} NothingToReplace(text: string, s: string)
    requires s != "" && !Contains(text, s)
    ensures ReplaceAll(text, s) == text
  {
    if |text| >= |s| {
      assert !OccursAt(text, s, 0);
      if Contains(text[1..], s) {
        Shift(text, s, 1);
      }
      NothingToReplace(text[1..], s);
      assert text == [text[0]] + text[1..];
    }
  }

  /** An occurrence that overlaps a mask at the front agrees with it. */
  lemma OverlapAgrees(result: string, s: string, i: int)
    requires REDACTED <= result && OccursAt(result, s, i)
    ensures Agrees(s, i)
  {
    forall k | 0 <= k < |s| && 0 <= k + i < |REDACTED| ensures s[k] == REDACTED[k + i] {
      assert result[i..i + |s|][k] == result[i + k];
    }
  }

  lemma AgreesOnTail(s: string, j: int)
    requires s != "" && j <= 0 && !Agrees(s, j - 1)
    ensures !Agrees(s[1..], j)
  {
    var i :| 0 <= i < |s| && 0 <= i + (j - 1) < |REDACTED| && s[i] != REDACTED[i + (j - 1)];
    assert s[1..][i - 1] != REDACTED[i - 1 + j];
  }

  /** What starts at the front of the result, and cannot run into a mask, was at the front of the text. */
  lemma {:induction false} PrefixWasThere(text: string, a: string, s: string)
    requires a != "" && s <= ReplaceAll(text, a)
    requires forall j | -|s| < j <= 0 :: !Agrees(s, j)
    ensures s <= text
  {
    if |text| >= |a| && s != "" {
      if a <= text {
        OverlapAgrees(ReplaceAll(text, a), s, 0);
        assert false;
      } else {
        forall j | -|s[1..]| < j <= 0 ensures !Agrees(s[1..], j) {
          AgreesOnTail(s, j);
        }
        PrefixWasThere(text[1..], a, s[1..]);
        assert s == [s[0]] + s[1..];
      }
    }
  }

  lemma Copied(result: string, rest: string, s: string, k: nat, i: int)
    requires k <= i && k <= |result| && result[k..] == rest && OccursAt(result, s, i)
    ensures OccursAt(rest, s, i - k)
  {
    assert rest[i - k..i - k + |s|] == result[i..i + |s|];
  }

  /** An occurrence in the result lies clear of the masks, so it was copied; and it is not a fresh one of `a`. */
  lemma {:induction false} OccurrenceWasCopied(text: string, a: string, s: string, i: int)
    requires a != "" && s != "" && Clear(s) && OccursAt(ReplaceAll(text, a), s, i)
    ensures Contains(text, s) && s != a
    decreases |text|
  {
    var result := ReplaceAll(text, a);
    if |text| < |a| {
      assert OccursAt(text, s, i);
    } else if a <= text {
      OverlapAgrees(result, s, i);
      assert i >= |REDACTED|;
      var rest := text[|a|..];
      Copied(result, ReplaceAll(rest, a), s, |REDACTED|, i);
      OccurrenceWasCopied(rest, a, s, i - |REDACTED|);
      Shift(text, s, |a|);
    } else if i > 0 {
      Copied(result, ReplaceAll(text[1..], a), s, 1, i);
      OccurrenceWasCopied(text[1..], a, s, i - 1);
      Shift(text, s, 1);
    } else {
      assert s == result[..|s|];
      PrefixWasThere(text, a, s);
      assert OccursAt(text, s, 0);
    }
  }

  // ---------------------------------------------------------------- the whole fold

  /** Later replacements never bring back a secret that is gone, and each one removes its own. */
  lemma {:induction false} StaysGone(text: string, ordered: seq<string>, s: string)
    requires forall x | x in ordered :: |x| >= MIN_SECRET_LENGTH
    requires |s| >= MIN_SECRET_LENGTH && Clear(s)
    requires s in ordered || !Contains(text, s)
    ensures !Contains(MaskAll(text, ordered), s)
    decreases ordered
  {
    if ordered != [] {
      var a := ordered[0];
      JoinAfterSplit(text, a);
      var next := ReplaceAll(text, a);
      if s !in ordered[1..] {
        if i :| OccursAt(next, s, i) {
          OccurrenceWasCopied(text, a, s, i);
          assert false;
        }
      }
      StaysGone(next, ordered[1..], s);
    }
  }

  ghost predicate NothingLeft(secrets: seq<string>, text: string) {
    forall s | s in secrets && |s| >= 8 :: !Contains(text, s)
  }

  /** For secrets that cannot meet the mask, nothing is left of any of them in any output. */
  lemma RedactionLeavesNothing(secrets: seq<string>, text: string)
    requires forall s | s in secrets && |s| >= MIN_SECRET_LENGTH :: Clear(s)
    ensures NothingLeft(secrets, Redacted(secrets, text))
  {
    OrderedMembers(secrets);
    forall s | s in secrets && |s| >= MIN_SECRET_LENGTH ensures !Contains(Redacted(secrets, text), s) {
      StaysGone(text, Ordered(secrets), s);
    }
  }

  lemma {:induction false} SomethingIsMasked(text: string, a: string)
    requires a != "" && Contains(text, a)
    ensures Contains(ReplaceAll(text, a), "redacted")
    decreases |text|
  {
    if a <= text {
      assert OccursAt(ReplaceAll(text, a), "redacted", 1);
    } else {
      var k :| OccursAt(text, a, k);
      assert OccursAt(text[1..], a, k - 1);
      SomethingIsMasked(text[1..], a);
      assert ReplaceAll(text, a)[1..] == ReplaceAll(text[1..], a);
      Shift(ReplaceAll(text, a), "redacted", 1);
    }
  }

  lemma {:induction false} MaskIsKept(text: string, a: string)
    requires a != "" && Contains(text, "redacted")
    ensures Contains(ReplaceAll(text, a), "redacted")
    decreases |text|
  {
    if |text| >= |a| {
      if a <= text {
        assert OccursAt(ReplaceAll(text, a), "redacted", 1);
      } else {
        var i :| OccursAt(text, "redacted", i);
        if exists k :: OccursAt(text, a, k) {
          SomethingIsMasked(text, a);
        } else {
          NothingToReplace(text, a);
        }
      }
    }
  }

  lemma {:induction false} MaskStays(text: string, ordered: seq<string>)
    requires forall s | s in ordered :: |s| >= MIN_SECRET_LENGTH
    requires Contains(text, "redacted")
    ensures Contains(MaskAll(text, ordered), "redacted")
    decreases ordered
  {
    if ordered != [] {
      JoinAfterSplit(text, ordered[0]);
      MaskIsKept(text, ordered[0]);
      MaskStays(ReplaceAll(text, ordered[0]), ordered[1..]);
    }
  }

  /** Without brackets in the secrets, redaction leaves nothing on every text exactly when "redacted" is not one of them. */
  lemma NothingLeftExactlyWhen(secrets: seq<string>)
    requires forall s | s in secrets && |s| >= MIN_SECRET_LENGTH :: NoBrackets(s)
    ensures (forall text :: NothingLeft(secrets, Redacted(secrets, text))) <==> "redacted" !in secrets
  {
    if "redacted" in secrets {
      assert OccursAt("redacted", "redacted", 0);
      MaskStays("redacted", Ordered(secrets));
      assert !NothingLeft(secrets, Redacted(secrets, "redacted"));
    } else {
      forall s | s in secrets && |s| >= MIN_SECRET_LENGTH ensures Clear(s) {
        ClearWithoutBrackets(s);
      }
      forall text ensures NothingLeft(secrets, Redacted(secrets, text)) {
        RedactionLeavesNothing(secrets, text);
      }
    }
  }

  lemma {:induction false} NothingToMask(text: string, ordered: seq<string>)
    requires forall s | s in ordered :: |s| >= MIN_SECRET_LENGTH && !Contains(text, s)
    ensures MaskAll(text, ordered) == text
  {
    if ordered != [] {
      JoinAfterSplit(text, ordered[0]);
      NothingToReplace(text, ordered[0]);
      NothingToMask(text, ordered[1..]);
    }
  }

  /** A text with no secret in it comes out unchanged, whatever the secrets are. */
  lemma CleanTextUnchanged(secrets: seq<string>, text: string)
    requires NothingLeft(secrets, text)
    ensures Redacted(secrets, text) == text
  {
    OrderedMembers(secrets);
    NothingToMask(text, Ordered(secrets));
  }

  /** Redacting twice is redacting once. */
  lemma Idempotent(secrets: seq<string>, text: string)
    requires forall s | s in secrets && |s| >= MIN_SECRET_LENGTH :: Clear(s)
    ensures Redacted(secrets, Redacted(secrets, text)) == Redacted(secrets, text)
  {
    RedactionLeavesNothing(secrets, text);
    CleanTextUnchanged(secrets, Redacted(secrets, text));
  }

  // ---------------------------------------------------------------- longest first

  lemma {:induction false} WholeSecretMasked(ordered: seq<string>, s: string)
    requires forall x | x in ordered :: |x| >= MIN_SECRET_LENGTH && Clear(x)
    requires Sorted(ordered, LongestFirst) && s in ordered
    ensures MaskAll(s, ordered) == REDACTED
  {
    var a := ordered[0];
    JoinAfterSplit(s, a);
    if a == s {
      assert s[|s|..] == "";
      assert ReplaceAll(s, a) == REDACTED + "" == REDACTED;
      forall x | x in ordered[1..] ensures !Contains(REDACTED, x) {
        if i :| OccursAt(REDACTED, x, i) {
          OverlapAgrees(REDACTED, x, i);
          assert false;
        }
      }
      NothingToMask(REDACTED, ordered[1..]);
    } else {
      var k :| 0 <= k < |ordered| && ordered[k] == s;
      assert LongestFirst(ordered[0], ordered[k]);
      assert s[0..|s|] == s;
      assert !Contains(s, a);
      NothingToReplace(s, a);
      WholeSecretMasked(ordered[1..], s);
    }
  }

  /** A secret that contains another is masked as a whole, because the longer one goes first. */
  lemma LongestFirstMasksWhole(secrets: seq<string>, s: string)
    requires forall x | x in secrets && |x| >= MIN_SECRET_LENGTH :: Clear(x)
    requires s in secrets && |s| >= 8
    ensures Redacted(secrets, s) == "[redacted]"
  {
    OrderedMembers(secrets);
    SortSorted(LongEnough(secrets), LongestFirst);
    WholeSecretMasked(Ordered(secrets), s);
  }

  lemma OrderedPair(a: string, b: string)
    requires |a| > |b| >= MIN_SECRET_LENGTH
    ensures Ordered([a, b]) == [a, b]
  {
    FilterIsIdentity([a, b], IsLong);
    assert [a, b][1..] == [b] && [b][1..] == [];
    assert Sort([b], LongestFirst) == [b];
  }

  lemma MaskPair(text: string, a: string, b: string)
    requires |a| > |b| >= MIN_SECRET_LENGTH && |text| < |a|
    ensures MaskAll(text, [a, b]) == ReplaceAll(text, b)
  {
    assert [a, b][1..] == [b] && [b][1..] == [];
    JoinAfterSplit(text, a);
    JoinAfterSplit(text, b);
    assert MaskAll(text, [a, b]) == MaskAll(text, [b]) == MaskAll(ReplaceAll(text, b), []);
  }

  lemma ShorterSecretMasked()
    ensures ReplaceAll("mypassword", "password") == "my[redacted]"
  {
    var short, text := "password", "mypassword";
    assert short[0] == 'p' && text[0] == 'm' && text[1] == 'y';
    SkipOne(text, short);
    SkipOne(text[1..], short);
    assert text[1..][1..] == short && short[|short|..] == "";
    assert ReplaceAll(short, short) == REDACTED + ReplaceAll("", short);
  }

  /** Brackets do matter: masking the shorter secret here spells out the longer one. */
  lemma BracketsCanBringBackASecret()
    ensures Redacted(["my[redacted]", "password"], "mypassword") == "my[redacted]"
  {
    OrderedPair("my[redacted]", "password");
    MaskPair("mypassword", "my[redacted]", "password");
    ShorterSecretMasked();
  }

  // ---------------------------------------------------------------- one secret, whatever its characters

  /**
   * Laid over a mask at `j`, the secret agrees with it; and what of it then stands before the mask does not make
   * the search stop earlier when the secret itself follows.
   */
  ghost predicate LeaksAt(s: string, j: int)
    requires -|s| < j
  {
    Agrees(s, j) && (j < 0 ==> !Contains(s[..-j] + s[..|s| - 1], s))
  }

  ghost predicate Leaks(s: string) {
    exists j | -|s| < j < |REDACTED| :: LeaksAt(s, j)
  }

  lemma SliceOfSlice(text: string, a: nat, b: nat, d: nat, n: nat)
    requires a <= b <= |text| && d + n <= b - a
    ensures text[a..b][d..d + n] == text[a + d..a + d + n]
  {
    var inner, outer := text[a..b][d..d + n], text[a + d..a + d + n];
    assert |inner| == |outer| && forall x | 0 <= x < n :: inner[x] == outer[x];
  }

  ghost predicate FirstAt(text: string, s: string, k: nat) {
    OccursAt(text, s, k) && forall l | 0 <= l < k :: !OccursAt(text, s, l)
  }

  lemma FirstLater(text: string, s: string, k: nat)
    requires |text| >= |s| > 0 && !(s <= text) && FirstAt(text[1..], s, k)
    ensures FirstAt(text, s, k + 1)
  {
    assert text[k + 1..k + 1 + |s|] == text[1..][k..k + |s|];
    forall l | 0 <= l < k + 1 ensures !OccursAt(text, s, l) {
      if OccursAt(text, s, l) && l > 0 {
        assert text[1..][l - 1..l - 1 + |s|] == text[l..l + |s|];
        assert OccursAt(text[1..], s, l - 1);
      }
    }
  }

  lemma OccursLater(text: string, s: string)
    requires s != "" && Contains(text, s) && !(s <= text)
    ensures Contains(text[1..], s)
  {
    var i :| OccursAt(text, s, i);
    assert text[1..][i - 1..i - 1 + |s|] == text[i..i + |s|];
    assert OccursAt(text[1..], s, i - 1);
  }

  lemma Prepended(text: string, k: nat, rest: string)
    requires k < |text|
    ensures [text[0]] + (text[1..][..k] + REDACTED + rest) == text[..k + 1] + REDACTED + rest
  {
    assert text[..k + 1] == [text[0]] + text[1..][..k];
  }

  /** The first replacement is at `k`; what follows is masked as a text of its own. */
  ghost predicate ReplacedAt(text: string, s: string, k: nat)
    requires s != ""
  {
    k + |s| <= |text| && ReplaceAll(text, s) == text[..k] + REDACTED + ReplaceAll(text[k + |s|..], s)
  }

  lemma ReplaceNow(text: string, s: string)
    requires s != "" && s <= text
    ensures ReplacedAt(text, s, 0) && FirstAt(text, s, 0)
  {
    assert text[..0] + REDACTED == REDACTED;
    assert text[0..0 + |s|] == s;
  }

  lemma ReplaceLater(text: string, s: string, k: nat)
    requires |text| >= |s| > 0 && !(s <= text) && ReplacedAt(text[1..], s, k)
    ensures ReplacedAt(text, s, k + 1)
  {
    assert text[1..][k + |s|..] == text[k + 1 + |s|..];
    SkipOne(text, s);
    Prepended(text, k, ReplaceAll(text[k + 1 + |s|..], s));
  }

  /** The first occurrence is the first one replaced. */
  lemma {:induction false} Leftmost(text: string, s: string) returns (k: nat)
    requires s != "" && Contains(text, s)
    ensures FirstAt(text, s, k) && ReplacedAt(text, s, k)
    decreases |text|
  {
    if s <= text {
      k := 0;
      ReplaceNow(text, s);
    } else {
      OccursLater(text, s);
      k := Leftmost(text[1..], s);
      FirstLater(text, s, k);
      ReplaceLater(text, s, k);
      k := k + 1;
    }
  }

  /** An occurrence that shares a character with the first mask, and what it says about the secret. */
  lemma AtFirstMask(text: string, s: string, k: nat, tail: string, i: int)
    requires s != "" && FirstAt(text, s, k)
    requires OccursAt(text[..k] + REDACTED + tail, s, i) && -|s| < i - k < |REDACTED|
    ensures LeaksAt(s, i - k)
  {
    var result := text[..k] + REDACTED + tail;
    forall x | 0 <= x < |s| && 0 <= x + (i - k) < |REDACTED| ensures s[x] == REDACTED[x + (i - k)] {
      assert result[i..i + |s|][x] == result[i + x];
    }
    if i < k {
      assert s[..k - i] == result[i..k] == text[i..k];
      var window := s[..k - i] + s[..|s| - 1];
      assert window == text[i..k + |s| - 1] by {
        assert text[k..k + |s|] == s;
        assert text[k..k + |s| - 1] == s[..|s| - 1];
      }
      if d :| OccursAt(window, s, d) {
        SliceOfSlice(text, i, k + |s| - 1, d, |s|);
        assert OccursAt(text, s, i + d);
      }
    }
  }

  /** What ends before the first mask was there. */
  lemma BeforeTheMask(text: string, s: string, k: nat, tail: string, i: int)
    requires k <= |text| && OccursAt(text[..k] + REDACTED + tail, s, i)
    ensures i + |s| <= k ==> OccursAt(text, s, i)
  {
    if i + |s| <= k {
      var result := text[..k] + REDACTED + tail;
      assert result[..k] == text[..k];
      SliceOfSlice(result, 0, k, i, |s|);
      SliceOfSlice(text, 0, k, i, |s|);
    }
  }

  lemma {:induction false} LeftoverLeaks(text: string, s: string, i: int)
    requires s != "" && OccursAt(ReplaceAll(text, s), s, i)
    ensures Leaks(s)
    decreases |text|
  {
    if !Contains(text, s) {
      NothingToReplace(text, s);
      assert false;
    } else {
      var k := Leftmost(text, s);
      var tail := ReplaceAll(text[k + |s|..], s);
      var result := text[..k] + REDACTED + tail;
      BeforeTheMask(text, s, k, tail, i);
      if i >= k + |REDACTED| {
        Copied(result, tail, s, k + |REDACTED|, i);
        LeftoverLeaks(text[k + |s|..], s, i - k - |REDACTED|);
      } else {
        AtFirstMask(text, s, k, tail, i);
      }
    }
  }

  /** A search that cannot stop earlier stops at the secret. */
  lemma FirstAfter(left: string, s: string, right: string)
    requires s != "" && (left != "" ==> !Contains(left + s[..|s| - 1], s))
    ensures FirstAt(left + s + right, s, |left|)
  {
    var text, window := left + s + right, left + s[..|s| - 1];
    assert text[..|window|] == window;
    forall l | 0 <= l < |left| ensures !OccursAt(text, s, l) {
      SliceOfSlice(text, 0, |window|, l, |s|);
      assert !OccursAt(window, s, l);
    }
  }

  lemma ReplaceAfter(left: string, s: string, right: string)
    requires s != "" && |right| < |s|
    requires left != "" ==> !Contains(left + s[..|s| - 1], s)
    ensures ReplaceAll(left + s + right, s) == left + REDACTED + right
  {
    var text := left + s + right;
    FirstAfter(left, s, right);
    var k := Leftmost(text, s);
    assert k == |left|;
    assert text[..k] == left && text[k + |s|..] == right;
  }

  /** Around a mask, what it leaves over of the secret completes the secret. */
  lemma Completes(s: string, j: int, left: string, right: string)
    requires s != "" && -|s| < j < |REDACTED| && Agrees(s, j)
    requires left == if j < 0 then s[..-j] else ""
    requires right == if |REDACTED| - j < |s| then s[|REDACTED| - j..] else ""
    ensures Contains(left + REDACTED + right, s)
  {
    var result := left + REDACTED + right;
    var i := if j < 0 then 0 else j;
    forall x | 0 <= x < |s| ensures result[i + x] == s[x] {
      if 0 <= x + j < |REDACTED| {
        assert s[x] == REDACTED[x + j];
      }
    }
    assert result[i..i + |s|] == s;
    assert OccursAt(result, s, i);
  }

  /** The text that brings such a secret back: itself, in what the mask leaves over of it. */
  lemma LeakShows(s: string, j: int) returns (text: string)
    requires s != "" && -|s| < j < |REDACTED| && LeaksAt(s, j)
    ensures Contains(ReplaceAll(text, s), s)
  {
    var left := if j < 0 then s[..-j] else "";
    var right := if |REDACTED| - j < |s| then s[|REDACTED| - j..] else "";
    text := left + s + right;
    ReplaceAfter(left, s, right);
    Completes(s, j, left, right);
  }

  lemma RedactedOnce(s: string, text: string)
    requires |s| >= MIN_SECRET_LENGTH
    ensures Redacted([s], text) == ReplaceAll(text, s)
  {
    FilterIsIdentity([s], IsLong);
    assert [s][1..] == [];
    JoinAfterSplit(text, s);
    assert MaskAll(text, [s]) == MaskAll(ReplaceAll(text, s), []);
  }

  /** Masking a single secret can leave the secret itself exactly when it fits a mask in this way. */
  lemma SingleSecretLeaksExactlyWhen(s: string)
    requires |s| >= 8
    ensures (exists text :: Contains(Redacted([s], text), s)) <==> Leaks(s)
  {
    if Leaks(s) {
      var j :| -|s| < j < |REDACTED| && LeaksAt(s, j);
      var text := LeakShows(s, j);
      RedactedOnce(s, text);
      assert Contains(Redacted([s], text), s);
    }
    if text :| Contains(Redacted([s], text), s) {
      RedactedOnce(s, text);
      var i :| OccursAt(ReplaceAll(text, s), s, i);
      LeftoverLeaks(text, s, i);
    }
  }

  /** Meeting the mask is not enough to leak: a secret can be in its own way. */
  lemma MeetsTheMaskButNeverLeaks(s: string)
    requires s == "[[[[[[[["
    ensures !Clear(s) && !Leaks(s)
  {
    assert Agrees(s, -7);
    forall j | -|s| < j < |REDACTED| ensures !LeaksAt(s, j) {
      if j == -7 {
        assert OccursAt(s[..7] + s[..7], s, 0);
      } else if j >= 0 {
        assert s[if j == 0 then 1 else 0] != REDACTED[if j == 0 then 1 else j];
      } else {
        assert s[1 - j] != REDACTED[1];
      }
    }
  }
}
