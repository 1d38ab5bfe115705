/** ASCII strings as the audit scripts use them: lowering, substrings, word characters, joining. */
module Strings {

  predicate IsCapital(c: char) {
    'A' <= c <= 'Z'
  }

  function LowerChar(c: char): char {
    if IsCapital(c) then c + 32 as char else c
  }

  function Lower(s: string): (r: string)
    ensures |r| == |s|
    ensures forall i :: 0 <= i < |s| ==> r[i] == LowerChar(s[i])
  {
    seq(|s|, i requires 0 <= i < |s| => LowerChar(s[i]))
  }

  /** The word characters of a regular expression's \w, over ASCII. */
  predicate IsWord(c: char) {
    'a' <= c <= 'z' || 'A' <= c <= 'Z' || '0' <= c <= '9' || c == '_'
  }

  predicate OccursAt(sub: string, s: string, i: int) {
    0 <= i <= |s| - |sub| && s[i..i + |sub|] == sub
  }

  predicate Contains(s: string, sub: string) {
    exists i :: 0 <= i <= |s| && OccursAt(sub, s, i)
  }

  predicate StartsWith(s: string, prefix: string) {
    OccursAt(prefix, s, 0)
  }

  predicate EndsWith(s: string, ending: string) {
    OccursAt(ending, s, |s| - |ending|)
  }

  predicate EndsWithAny(s: string, endings: set<string>) {
    exists ending :: ending in endings && EndsWith(s, ending)
  }

  /** `separator.join(pieces)` for a one-character separator. */
  function Join(pieces: seq<string>, separator: char): string {
    if |pieces| == 0 then ""
    else if |pieces| == 1 then pieces[0]
    else pieces[0] + [separator] + Join(pieces[1..], separator)
  }

  // ----- What these mean, said in other terms

  const CAPITALS := "ABCDEFGHIJKLMNOPQRSTUVWXYZ"
  const SMALL_LETTERS := "abcdefghijklmnopqrstuvwxyz"

  lemma LowerCharMeans(k: nat, c: char)
    requires k < 26
    ensures LowerChar(CAPITALS[k]) == SMALL_LETTERS[k]
    ensures c !in CAPITALS ==> LowerChar(c) == c
  {
  }

  lemma IsWordMeans(c: char)
    ensures IsWord(c) <==> c in CAPITALS || c in SMALL_LETTERS || c in "0123456789" || c == '_'
  {
  }

  lemma ContainsMeans(s: string, sub: string) returns (a: string, b: string)
    requires Contains(s, sub)
    ensures s == a + sub + b
  {
    var i :| 0 <= i <= |s| && OccursAt(sub, s, i);
    a, b := s[..i], s[i + |sub|..];
  }

  lemma SplitContains(a: string, sub: string, b: string)
    ensures Contains(a + sub + b, sub)
  {
    assert (a + sub + b)[|a|..|a| + |sub|] == sub;
    assert OccursAt(sub, a + sub + b, |a|);
  }

  lemma StartsWithMeans(s: string, prefix: string)
    ensures StartsWith(s, prefix) <==> prefix <= s
  {
  }

  lemma EndsWithMeans(s: string, ending: string)
    ensures EndsWith(s, ending) <==> exists a: string :: s == a + ending
  {
    if EndsWith(s, ending) {
      assert s == s[..|s| - |ending|] + ending;
    }
    if a: string :| s == a + ending {
      assert s[|s| - |ending|..] == ending;
    }
  }

  lemma JoinOfOne(piece: string, separator: char)
    ensures Join([], separator) == "" && Join([piece], separator) == piece
  {
  }

  lemma {:induction false} JoinAppend(a: seq<string>, b: seq<string>, separator: char)
    requires a != [] && b != []
    ensures Join(a + b, separator) == Join(a, separator) + [separator] + Join(b, separator)
  {
    if |a| == 1 {
      assert (a + b)[1..] == b;
    } else {
      JoinAppend(a[1..], b, separator);
      assert (a + b)[1..] == a[1..] + b;
    }
  }
}
