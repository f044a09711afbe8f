/**
 * The small regular-expression language the toll tables are written in.
 * Every pattern in both tables is a sequence of pieces joined by `.*`; a
 * piece is a literal text, or two literal texts with the optional
 * separator class `[-\s]?` between them. Searching a pattern in a road
 * name (Python's `re.search`) succeeds when the pieces occur in the name in
 * order, each starting at or after the end of the previous one, with no
 * line break in the text a `.*` skips.
 */
module Patterns {

  /** A piece that must match contiguously: `text`, or `left[-\s]?right`. */
  datatype Chunk = Literal(text: string) | Joined(left: string, right: string)

  /** Chunks joined by `.*`. */
  type Pattern = seq<Chunk>

  /** `\s` in a pattern over `str`: the characters Python counts as
      whitespace, the ASCII ones (tab to carriage return, the four
      separators 0x1C-0x1F, space) and the Unicode ones. */
  predicate IsSpace(c: char) {
    ('\t' <= c <= '\r') || ('\U{1C}' <= c <= ' ') || c == '\U{85}' || c == '\U{A0}' ||
    c == '\U{1680}' || ('\U{2000}' <= c <= '\U{200A}') || c == '\U{2028}' || c == '\U{2029}' ||
    c == '\U{202F}' || c == '\U{205F}' || c == '\U{3000}'
  }

  /** The class `[-\s]`. */
  predicate IsSep(c: char) {
    c == '-' || IsSpace(c)
  }

  /** The text `t` stands in `s` at position `i`. */
  predicate StandsAt(t: string, s: string, i: nat) {
    i + |t| <= |s| && forall k :: 0 <= k < |t| ==> s[i + k] == t[k]
  }

  /** Chunk `c` matches exactly `s[i..j]`. */
  predicate ChunkMatch(c: Chunk, s: string, i: nat, j: nat) {
    i <= j <= |s| &&
    match c
    case Literal(t) => j == i + |t| && StandsAt(t, s, i)
    case Joined(a, b) =>
      StandsAt(a, s, i) &&
      ((j == i + |a| + |b| && StandsAt(b, s, i + |a|)) ||
       (i + |a| < |s| && IsSep(s[i + |a|]) && j == i + |a| + 1 + |b| && StandsAt(b, s, i + |a| + 1)))
  }

  /** `.` matches any character except a line break, so `.*` may skip `s[k..i]`. */
  predicate Skippable(s: string, k: nat, i: nat)
    requires k <= i <= |s|
  {
    forall m :: k <= m < i ==> s[m] != '\n'
  }

  /** `.*` followed by the chunks of `p`, in order, matches from position `k` on. */
  predicate Follows(p: Pattern, s: string, k: nat)
    decreases |p|
  {
    p == [] ||
    exists i, j :: k <= i <= j <= |s| && Skippable(s, k, i) && ChunkMatch(p[0], s, i, j) && Follows(p[1..], s, j)
  }

  /** `re.search(p, s)`: the first chunk matches anywhere in `s`, the rest follow it. */
  predicate Search(p: Pattern, s: string) {
    p == [] ||
    exists i, j :: 0 <= i <= j <= |s| && ChunkMatch(p[0], s, i, j) && Follows(p[1..], s, j)
  }

  /** Extra chunks after `p` only make a match harder. */
  lemma {:induction false} FollowsPrefix(p: Pattern, q: Pattern, s: string, k: nat)
    requires Follows(p + q, s, k)
    ensures Follows(p, s, k)
    decreases |p|
  {
    if p != [] {
      var i, j :| k <= i <= j <= |s| && Skippable(s, k, i) && ChunkMatch((p + q)[0], s, i, j) &&
        Follows((p + q)[1..], s, j);
      assert (p + q)[1..] == p[1..] + q;
      FollowsPrefix(p[1..], q, s, j);
    }
  }

  /** A name in which `p` followed by more pieces is found also contains `p` alone. */
  lemma SearchPrefix(p: Pattern, q: Pattern, s: string)
    requires Search(p + q, s)
    ensures Search(p, s)
  {
    if p != [] {
      var i, j :| 0 <= i <= j <= |s| && ChunkMatch((p + q)[0], s, i, j) && Follows((p + q)[1..], s, j);
      assert (p + q)[1..] == p[1..] + q;
      FollowsPrefix(p[1..], q, s, j);
    }
  }

  /** A one-piece literal pattern is found exactly where its text is a substring. */
  lemma LiteralSearch(t: string, s: string)
    ensures Search([Literal(t)], s) <==> exists i: nat :: StandsAt(t, s, i)
  {
    var p := [Literal(t)];
    assert p[1..] == [];
    if exists i: nat :: StandsAt(t, s, i) {
      var i: nat :| StandsAt(t, s, i);
      assert ChunkMatch(p[0], s, i, i + |t|) && Follows(p[1..], s, i + |t|);
    }
  }

  // ---------------------------------------------------------------- missing characters

  /** Every character of `s` is drawn from `alphabet`. */
  predicate DrawnFrom(s: string, alphabet: set<char>) {
    forall k :: 0 <= k < |s| ==> s[k] in alphabet
  }

  /** Some character of `t` at or after position `k` is outside `alphabet`. */
  predicate MissingFrom(t: string, alphabet: set<char>, k: nat)
    decreases |t| - k
  {
    k < |t| && (t[k] !in alphabet || MissingFrom(t, alphabet, k + 1))
  }

  /** Some character of `t` is outside `alphabet`. */
  predicate Missing(t: string, alphabet: set<char>) {
    MissingFrom(t, alphabet, 0)
  }

  lemma {:induction false} MissingWitness(t: string, alphabet: set<char>, k: nat) returns (m: nat)
    requires MissingFrom(t, alphabet, k)
    ensures k <= m < |t| && t[m] !in alphabet
    decreases |t| - k
  {
    if t[k] !in alphabet {
      m := k;
    } else {
      m := MissingWitness(t, alphabet, k + 1);
    }
  }

  /** A text with a character outside the alphabet of `s` stands nowhere in `s`. */
  lemma MissingNowhere(t: string, s: string, alphabet: set<char>, i: nat)
    requires DrawnFrom(s, alphabet) && Missing(t, alphabet)
    ensures !StandsAt(t, s, i)
  {
    var k := MissingWitness(t, alphabet, 0);
  }

  /** Some literal character of the chunk is outside `alphabet`. */
  predicate ChunkLacks(c: Chunk, alphabet: set<char>) {
    match c
    case Literal(t) => Missing(t, alphabet)
    case Joined(a, b) => Missing(a, alphabet) || Missing(b, alphabet)
  }

  /** Some literal character of a chunk at or after position `n` is outside `alphabet`. */
  predicate PatternLacksFrom(p: Pattern, alphabet: set<char>, n: nat)
    decreases |p| - n
  {
    n < |p| && (ChunkLacks(p[n], alphabet) || PatternLacksFrom(p, alphabet, n + 1))
  }

  /** Some literal character of the pattern is outside `alphabet`. */
  predicate PatternLacks(p: Pattern, alphabet: set<char>) {
    PatternLacksFrom(p, alphabet, 0)
  }

  lemma ChunkLacksUnmatched(c: Chunk, s: string, alphabet: set<char>, i: nat, j: nat)
    requires DrawnFrom(s, alphabet) && ChunkLacks(c, alphabet)
    ensures !ChunkMatch(c, s, i, j)
  {
    match c
    case Literal(t) =>
      MissingNowhere(t, s, alphabet, i);
    case Joined(a, b) =>
      if Missing(a, alphabet) {
        MissingNowhere(a, s, alphabet, i);
      } else {
        MissingNowhere(b, s, alphabet, i + |a|);
        MissingNowhere(b, s, alphabet, i + |a| + 1);
      }
  }

  lemma {:induction false} LackingWitness(p: Pattern, alphabet: set<char>, n: nat) returns (m: nat)
    requires PatternLacksFrom(p, alphabet, n)
    ensures n <= m < |p| && ChunkLacks(p[m], alphabet)
    decreases |p| - n
  {
    if ChunkLacks(p[n], alphabet) {
      m := n;
    } else {
      m := LackingWitness(p, alphabet, n + 1);
    }
  }

  /** No chunk in `p` at or after `n` can match once its characters are missing. */
  lemma {:induction false} LackingNotFollowing(p: Pattern, s: string, alphabet: set<char>, k: nat, n: nat)
    requires DrawnFrom(s, alphabet) && n < |p| && ChunkLacks(p[n], alphabet)
    ensures !Follows(p, s, k)
    decreases |p|
  {
    if Follows(p, s, k) {
      var i, j :| k <= i <= j <= |s| && Skippable(s, k, i) && ChunkMatch(p[0], s, i, j) && Follows(p[1..], s, j);
      if n == 0 {
        ChunkLacksUnmatched(p[0], s, alphabet, i, j);
      } else {
        LackingNotFollowing(p[1..], s, alphabet, j, n - 1);
      }
    }
  }

  /** A pattern that spells a character the name does not contain is not found in it. */
  lemma LackingPatternNotFound(p: Pattern, s: string, alphabet: set<char>)
    requires DrawnFrom(s, alphabet) && PatternLacks(p, alphabet)
    ensures !Search(p, s)
  {
    var n := LackingWitness(p, alphabet, 0);
    if Search(p, s) {
      var i, j :| 0 <= i <= j <= |s| && ChunkMatch(p[0], s, i, j) && Follows(p[1..], s, j);
      if n == 0 {
        ChunkLacksUnmatched(p[0], s, alphabet, i, j);
      } else {
        LackingNotFollowing(p[1..], s, alphabet, j, n - 1);
      }
    }
  }

  // ---------------------------------------------------------------- case

  function LowerChar(c: char): char {
    if 'A' <= c <= 'Z' then (c as int + 32) as char else c
  }

  /** Python's `str.lower()` on ASCII letters. */
  function Lower(s: string): (r: string)
    ensures |r| == |s|
    ensures forall i :: 0 <= i < |s| ==> r[i] == LowerChar(s[i])
  {
    seq(|s|, i requires 0 <= i < |s| => LowerChar(s[i]))
  }

  /** Lowercasing leaves no ASCII capital, turns each capital into a small
      letter, keeps every other character, and changes nothing a second time. */
  lemma LowerNormalises(s: string)
    ensures forall i :: 0 <= i < |s| ==> !('A' <= Lower(s)[i] <= 'Z')
    ensures forall i :: 0 <= i < |s| && 'A' <= s[i] <= 'Z' ==> 'a' <= Lower(s)[i] <= 'z'
    ensures forall i :: 0 <= i < |s| && !('A' <= s[i] <= 'Z') ==> Lower(s)[i] == s[i]
    ensures Lower(Lower(s)) == Lower(s)
  {
  }
}
