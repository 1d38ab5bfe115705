/** Qualifying phrases ("not", "does not", ...) searched as word-bounded, case-insensitive
    alternatives, and what happens to such a search when lines are joined with spaces. */
module Qualifiers {
  import opened Strings

  predicate WordAt(s: string, i: int) {
    0 <= i < |s| && IsWord(s[i])
  }

  /** The regular expression assertion \b at position i of s. */
  predicate Boundary(s: string, i: int) {
    WordAt(s, i - 1) != WordAt(s, i)
  }

  predicate LettersAt(phrase: string, s: string, i: int)
    requires 0 <= i <= |s| - |phrase|
  {
    forall k :: 0 <= k < |phrase| ==> LowerChar(s[i + k]) == phrase[k]
  }

  predicate PhraseAt(phrase: string, s: string, i: int) {
    && 0 <= i <= |s| - |phrase|
    && Boundary(s, i)
    && Boundary(s, i + |phrase|)
    && LettersAt(phrase, s, i)
  }

  /** `re.search(r"(?i)\b(?:p1|p2|...)\b", s)` for the phrase set {p1, p2, ...}. */
  predicate Search(phrases: set<string>, s: string) {
    exists p, i :: p in phrases && 0 <= i <= |s| && PhraseAt(p, s, i)
  }

  predicate SearchAny(phrases: set<string>, lines: seq<string>) {
    exists j :: 0 <= j < |lines| && Search(phrases, lines[j])
  }

  /** Phrases are written in lower case and start and end with a word character. */
  ghost predicate WellFormed(phrases: set<string>) {
    forall p :: p in phrases ==> IsWellFormed(p)
  }

  predicate IsWellFormed(p: string) {
    p != "" && IsWord(p[0]) && IsWord(p[|p| - 1]) && Lower(p) == p
  }

  /** Wherever a phrase is cut at one of its spaces, one of the two pieces still qualifies. */
  ghost predicate SplitClosed(phrases: set<string>) {
    forall p :: p in phrases ==> CutsQualify(phrases, p)
  }

  ghost predicate CutsQualify(phrases: set<string>, p: string) {
    forall t :: 0 <= t < |p| && p[t] == ' ' ==>
      Search(phrases, p[..t]) || Search(phrases, p[t + 1..])
  }

  /** A qualifier is found exactly when some stretch of the text is a phrase, but for letter case, and
      no word character touches it on either side. */
  lemma SearchMeans(phrases: set<string>, s: string)
    requires WellFormed(phrases)
    ensures Search(phrases, s) <==> exists a: string, m: string, b: string :: Stands(phrases, s, a, m, b)
  {
    hide PhraseAt;
    if Search(phrases, s) {
      var p, i :| p in phrases && 0 <= i <= |s| && PhraseAt(p, s, i);
      hide Stands;
      var a, m, b := PhraseStands(phrases, s, p, i);
    } else {
      hide Search;
      forall a: string, m: string, b: string
        ensures !Stands(phrases, s, a, m, b)
      {
        if Stands(phrases, s, a, m, b) {
          StandingPhraseIsFound(phrases, s, a, m, b);
        }
      }
    }
  }

  lemma StandingPhraseIsFound(phrases: set<string>, s: string, a: string, m: string, b: string)
    requires WellFormed(phrases) && Stands(phrases, s, a, m, b)
    ensures Search(phrases, s)
  {
    hide PhraseAt;
    StandingPhrase(s, a, m, b, Lower(m));
  }

  /** The text is `a`, `m` and `b` in a row; `m` is a phrase but for letter case, between non-words. */
  predicate Stands(phrases: set<string>, s: string, a: string, m: string, b: string) {
    && s == a + m + b && Lower(m) in phrases
    && (a == "" || !IsWord(a[|a| - 1])) && (b == "" || !IsWord(b[0]))
  }

  lemma PhraseStands(phrases: set<string>, s: string, p: string, i: int)
    returns (a: string, m: string, b: string)
    requires WellFormed(phrases) && p in phrases && PhraseAt(p, s, i)
    ensures Stands(phrases, s, a, m, b)
  {
    a, m, b := s[..i], s[i..i + |p|], s[i + |p|..];
    assert s == a + m + b;
    assert Lower(m) == p;
    SameWord(m, p);
  }

  lemma StandingPhrase(s: string, a: string, m: string, b: string, p: string)
    requires s == a + m + b && p == Lower(m) && p != "" && IsWord(p[0]) && IsWord(p[|p| - 1])
    requires (a == "" || !IsWord(a[|a| - 1])) && (b == "" || !IsWord(b[0]))
    ensures |a| <= |s| && PhraseAt(p, s, |a|)
  {
    hide LettersAt, IsWord, LowerChar;
    SameWord(m, p);
    assert s[|a|..|a| + |m|] == m;
    StandingLetters(p, s, |a|, m);
    assert s[|a|] == m[0] && s[|a| + |m| - 1] == m[|m| - 1];
    assert a != "" ==> s[|a| - 1] == a[|a| - 1];
    assert b != "" ==> s[|a| + |m|] == b[0];
  }

  lemma StandingLetters(p: string, s: string, i: int, m: string)
    requires 0 <= i <= |s| - |m| && s[i..i + |m|] == m && p == Lower(m)
    ensures LettersAt(p, s, i)
  {
    SameLetters(p, s, i, m, 0);
  }

  lemma SameWord(m: string, p: string)
    requires Lower(m) == p && p != ""
    ensures IsWord(m[0]) == IsWord(p[0]) && IsWord(m[|m| - 1]) == IsWord(p[|p| - 1])
  {
  }

  // ----- A match survives being moved into a longer, space-joined text, and back

  lemma LeftPiece(p: string, x: string, rest: string, i: int)
    requires 0 <= i && i + |p| <= |x|
    ensures PhraseAt(p, x + " " + rest, i) <==> PhraseAt(p, x, i)
  {
    var s := x + " " + rest;
    assert forall k :: 0 <= k < |x| ==> s[k] == x[k];
    assert s[|x|] == ' ';
  }

  lemma SameLetters(p: string, s: string, i: int, r: string, j: int)
    requires 0 <= i <= |s| - |p| && 0 <= j <= |r| - |p|
    requires s[i..i + |p|] == r[j..j + |p|]
    ensures LettersAt(p, s, i) <==> LettersAt(p, r, j)
  {
    var a, b := s[i..i + |p|], r[j..j + |p|];
    assert LettersAt(p, s, i) <==> forall k :: 0 <= k < |p| ==> LowerChar(a[k]) == p[k];
    assert LettersAt(p, r, j) <==> forall k :: 0 <= k < |p| ==> LowerChar(b[k]) == p[k];
  }

  lemma RightPiece(p: string, x: string, rest: string, i: int)
    requires 0 <= i
    ensures PhraseAt(p, x + " " + rest, |x| + 1 + i) <==> PhraseAt(p, rest, i)
  {
    var s := x + " " + rest;
    assert s[|x|] == ' ';
    assert s[|x| + 1..] == rest;
    if 0 <= i <= |rest| - |p| {
      SameLetters(p, s, |x| + 1 + i, rest, i);
      assert WordAt(s, |x| + 1 + i) == WordAt(rest, i);
      assert WordAt(s, |x| + i) == WordAt(rest, i - 1);
      assert WordAt(s, |x| + 1 + i + |p|) == WordAt(rest, i + |p|);
      assert WordAt(s, |x| + i + |p|) == WordAt(rest, i + |p| - 1);
    }
  }

  lemma SearchPieces(phrases: set<string>, x: string, rest: string)
    ensures Search(phrases, x) || Search(phrases, rest) ==> Search(phrases, x + " " + rest)
  {
    if Search(phrases, x) {
      var p, i :| p in phrases && 0 <= i <= |x| && PhraseAt(p, x, i);
      LeftPiece(p, x, rest, i);
    }
    if Search(phrases, rest) {
      var p, i :| p in phrases && 0 <= i <= |rest| && PhraseAt(p, rest, i);
      RightPiece(p, x, rest, i);
      assert PhraseAt(p, x + " " + rest, |x| + 1 + i);
    }
  }

  /** Joining lines never hides a qualifier that one of them already carries. */
  lemma {:induction false} JoinKeepsQualifier(phrases: set<string>, lines: seq<string>)
    requires SearchAny(phrases, lines)
    ensures Search(phrases, Join(lines, ' '))
  {
    if |lines| > 1 {
      var j :| 0 <= j < |lines| && Search(phrases, lines[j]);
      if j > 0 {
        assert lines[1..][j - 1] == lines[j];
        JoinKeepsQualifier(phrases, lines[1..]);
      }
      SearchPieces(phrases, lines[0], Join(lines[1..], ' '));
    }
  }

  /** A qualifier found inside a piece of a matched phrase is also found in the text. */
  lemma InnerMatch(p: string, s: string, i: int, q: string, from: int, piece: string, off: int)
    requires PhraseAt(p, s, i)
    requires 0 <= from && from + |piece| <= |p| && p[from..from + |piece|] == piece
    requires from == 0 || p[from - 1] == ' '
    requires from + |piece| == |p| || p[from + |piece|] == ' '
    requires PhraseAt(q, piece, off)
    ensures PhraseAt(q, s, i + from + off)
  {
    var at := i + from + off;
    forall k | 0 <= k < |piece|
      ensures LowerChar(s[i + from + k]) == piece[k] && (IsWord(s[i + from + k]) <==> IsWord(piece[k]))
    {
      assert LowerChar(s[i + (from + k)]) == p[from + k];
    }
    forall k | 0 <= k < |q| ensures LowerChar(s[at + k]) == q[k] {
      assert LowerChar(piece[off + k]) == q[k];
      assert LowerChar(s[i + from + (off + k)]) == piece[off + k];
    }
    PieceBoundary(p, s, i, from, piece, off);
    PieceBoundary(p, s, i, from, piece, off + |q|);
  }

  lemma PieceBoundary(p: string, s: string, i: int, from: int, piece: string, b: int)
    requires PhraseAt(p, s, i)
    requires 0 <= from && from + |piece| <= |p| && p[from..from + |piece|] == piece
    requires from == 0 || p[from - 1] == ' '
    requires from + |piece| == |p| || p[from + |piece|] == ' '
    requires 0 <= b <= |piece| && Boundary(piece, b)
    ensures Boundary(s, i + from + b)
  {
    forall k | 0 <= k < |p| ensures IsWord(s[i + k]) <==> IsWord(p[k]) {
      assert LowerChar(s[i + k]) == p[k];
    }
    if b > 0 {
      assert piece[b - 1] == p[from + b - 1];
      assert WordAt(s, i + (from + b - 1)) == WordAt(piece, b - 1);
    } else if from > 0 {
      assert !IsWord(s[i + (from - 1)]);
    }
    if b < |piece| {
      assert piece[b] == p[from + b];
      assert WordAt(s, i + (from + b)) == WordAt(piece, b);
    } else if from + |piece| < |p| {
      assert !IsWord(s[i + (from + |piece|)]);
    }
  }

  /** A piece that qualifies on its own hands its match, shorter than p, on to the text around p. */
  lemma MatchInPiece(phrases: set<string>, s: string, p: string, i: int, from: int, piece: string)
    returns (q: string, j: int)
    requires PhraseAt(p, s, i)
    requires 0 <= from && from + |piece| <= |p| && p[from..from + |piece|] == piece
    requires from == 0 || p[from - 1] == ' '
    requires from + |piece| == |p| || p[from + |piece|] == ' '
    requires |piece| < |p| && Search(phrases, piece)
    ensures q in phrases && |q| < |p| && PhraseAt(q, s, j)
  {
    var off: int;
    q, off :| q in phrases && 0 <= off <= |piece| && PhraseAt(q, piece, off);
    InnerMatch(p, s, i, q, from, piece, off);
    j := i + from + off;
  }

  /** A match that covers a space contains, beside that space, a shorter match. */
  lemma Shrink(phrases: set<string>, s: string, p: string, i: int, t: int) returns (q: string, j: int)
    requires SplitClosed(phrases)
    requires p in phrases && PhraseAt(p, s, i)
    requires 0 <= t < |p| && p[t] == ' '
    ensures q in phrases && |q| < |p| && PhraseAt(q, s, j)
  {
    assert CutsQualify(phrases, p);
    if Search(phrases, p[..t]) {
      q, j := MatchInPiece(phrases, s, p, i, 0, p[..t]);
    } else {
      q, j := MatchInPiece(phrases, s, p, i, t + 1, p[t + 1..]);
    }
  }

  /** One joining space: with a split-closed set, a match that straddles it leaves one beside it. */
  lemma {:induction false} Unstraddle(phrases: set<string>, x: string, rest: string, p: string, i: int)
    requires SplitClosed(phrases)
    requires p in phrases && PhraseAt(p, x + " " + rest, i)
    ensures Search(phrases, x) || Search(phrases, rest)
    decreases |p|
  {
    var s := x + " " + rest;
    if i + |p| <= |x| {
      LeftPiece(p, x, rest, i);
    } else if i > |x| {
      var right := i - |x| - 1;
      RightPiece(p, x, rest, right);
      assert i == |x| + 1 + right;
    } else {
      var t := |x| - i;
      assert LowerChar(s[i + t]) == p[t];
      var q, j := Shrink(phrases, s, p, i, t);
      Unstraddle(phrases, x, rest, q, j);
    }
  }

  lemma {:induction false} JoinAddsNoQualifier(phrases: set<string>, lines: seq<string>)
    requires SplitClosed(phrases) && "" !in phrases
    requires Search(phrases, Join(lines, ' '))
    ensures SearchAny(phrases, lines)
  {
    if |lines| == 0 {
    } else if |lines| == 1 {
      assert lines[0] == Join(lines, ' ');
    } else {
      var rest := Join(lines[1..], ' ');
      var p, i :| p in phrases && 0 <= i <= |Join(lines, ' ')| && PhraseAt(p, Join(lines, ' '), i);
      Unstraddle(phrases, lines[0], rest, p, i);
      if Search(phrases, rest) {
        JoinAddsNoQualifier(phrases, lines[1..]);
        var j :| 0 <= j < |lines[1..]| && Search(phrases, lines[1..][j]);
        assert lines[j + 1] == lines[1..][j];
      }
    }
  }

  /** Searching a space-joined window is the same as searching its lines one by one, for every
      window, exactly when no phrase loses its qualifier by being broken at one of its spaces. */
  lemma JoinedSearchIsPerLine(phrases: set<string>)
    requires WellFormed(phrases)
    ensures SplitClosed(phrases) <==>
      forall lines: seq<string> :: Search(phrases, Join(lines, ' ')) <==> SearchAny(phrases, lines)
  {
    if SplitClosed(phrases) {
      forall lines: seq<string>
        ensures Search(phrases, Join(lines, ' ')) <==> SearchAny(phrases, lines)
      {
        if SearchAny(phrases, lines) {
          JoinKeepsQualifier(phrases, lines);
        }
        if Search(phrases, Join(lines, ' ')) {
          JoinAddsNoQualifier(phrases, lines);
        }
      }
    }
    if forall lines: seq<string> :: Search(phrases, Join(lines, ' ')) <==> SearchAny(phrases, lines) {
      forall p, t | p in phrases && 0 <= t < |p| && p[t] == ' '
        ensures Search(phrases, p[..t]) || Search(phrases, p[t + 1..])
      {
        BrokenPhrase(phrases, p, t);
        var j :| 0 <= j < 2 && Search(phrases, [p[..t], p[t + 1..]][j]);
      }
      assert forall p :: p in phrases ==> CutsQualify(phrases, p);
    }
  }

  /** A phrase broken over two lines at one of its spaces is found again in the joined window. */
  lemma BrokenPhrase(phrases: set<string>, p: string, t: int)
    requires WellFormed(phrases)
    requires p in phrases && 0 <= t < |p| && p[t] == ' '
    ensures Search(phrases, Join([p[..t], p[t + 1..]], ' '))
  {
    var lines := [p[..t], p[t + 1..]];
    assert lines[1..] == [p[t + 1..]];
    assert Join(lines, ' ') == p;
    forall k | 0 <= k < |p| ensures LowerChar(p[k]) == p[k] {
      assert Lower(p)[k] == p[k];
    }
    assert PhraseAt(p, p, 0);
  }

  // ----- The qualifier sets of the scripts

  const SETUP_SAFETY: set<string> := {
    "no", "not", "never", "does not", "do not", "is not", "are not", "must not", "without",
    "doesn't", "isn't", "aren't", "requires no", "not required", "not needed", "not implied"
  }

  const VERSIONED_RELEASE_EXTRA: set<string> := {
    "none", "absent", "not added", "not present", "excluded", "outside"
  }

  const MAINTAINER_HANDOFF_EXTRA: set<string> := {
    "none", "absent", "not added", "not present", "excluded", "outside", "prepared"
  }

  const RELEASE_CANDIDATE_EXTRA: set<string> := {
    "none", "absent", "not added", "not present", "did not", "has not", "excluded"
  }

  const DOCS_SITE_EXTRA: set<string> := {
    "none", "absent", "not added", "not present", "excluded"
  }

  const ROADMAP_EXTRA: set<string> := {
    "none", "absent", "not added", "not present", "excluded", "outside",
    "future", "later", "planned", "placeholder", "tbd"
  }

  const SECURITY_GAP: set<string> := {
    "no", "not", "never", "does not", "is not", "are not", "must not", "guidance", "guidance only",
    "future work", "future product work", "private infrastructure", "privately implemented",
    "intentionally not implemented"
  }

  const NEGATED: set<string> := {"no", "not", "never", "does not", "is not", "must not"}

  /** The additions that a three-line window ever makes to SETUP_SAFETY. */
  const WINDOW_EXTRAS: set<string> :=
    VERSIONED_RELEASE_EXTRA + MAINTAINER_HANDOFF_EXTRA + RELEASE_CANDIDATE_EXTRA + DOCS_SITE_EXTRA

  predicate NoSpace(s: string) {
    forall k :: 0 <= k < |s| ==> s[k] != ' '
  }

  lemma OneWord(phrases: set<string>, p: string)
    requires NoSpace(p)
    ensures CutsQualify(phrases, p)
  {
  }

  lemma TwoWords(phrases: set<string>, left: string, right: string, kernel: string)
    requires NoSpace(left) && NoSpace(right)
    requires kernel in phrases && (kernel == left || kernel == right)
    requires kernel != "" && IsWord(kernel[0]) && IsWord(kernel[|kernel| - 1]) && Lower(kernel) == kernel
    ensures CutsQualify(phrases, left + " " + right)
  {
    var p := left + " " + right;
    forall k | 0 <= k < |kernel| ensures LowerChar(kernel[k]) == kernel[k] {
      assert Lower(kernel)[k] == kernel[k];
    }
    assert PhraseAt(kernel, kernel, 0);
    assert Search(phrases, kernel);
    assert p[..|left|] == left && p[|left| + 1..] == right;
    forall t | |left| < t < |p| ensures p[t] != ' ' {
      assert p[t] == right[t - |left| - 1];
    }
  }

  lemma NotPhrase(phrases: set<string>, p: string, word: string)
    requires NoSpace(word) && "not" in phrases
    requires p == word + " " + "not" || p == "not" + " " + word
    ensures CutsQualify(phrases, p)
  {
    TwoWords(phrases, word, "not", "not");
    TwoWords(phrases, "not", word, "not");
  }

  lemma SetupSafetyCuts(phrases: set<string>, p: string)
    requires "not" in phrases && "no" in phrases && p in SETUP_SAFETY
    ensures CutsQualify(phrases, p)
  {
    if p == "requires no" {
      TwoWords(phrases, "requires", "no", "no");
      assert p == "requires" + " " + "no";
    } else if p == "does not" {
      NotPhrase(phrases, p, "does");
    } else if p == "do not" {
      NotPhrase(phrases, p, "do");
    } else if p == "is not" {
      NotPhrase(phrases, p, "is");
    } else if p == "are not" {
      NotPhrase(phrases, p, "are");
    } else if p == "must not" {
      NotPhrase(phrases, p, "must");
    } else if p == "not required" {
      NotPhrase(phrases, p, "required");
    } else if p == "not needed" {
      NotPhrase(phrases, p, "needed");
    } else if p == "not implied" {
      NotPhrase(phrases, p, "implied");
    } else {
      OneWord(phrases, p);
    }
  }

  lemma ExtraCuts(phrases: set<string>, p: string)
    requires "not" in phrases && p in WINDOW_EXTRAS
    ensures CutsQualify(phrases, p)
  {
    if p == "not added" {
      NotPhrase(phrases, p, "added");
    } else if p == "not present" {
      NotPhrase(phrases, p, "present");
    } else if p == "did not" {
      NotPhrase(phrases, p, "did");
    } else if p == "has not" {
      NotPhrase(phrases, p, "has");
    } else {
      OneWord(phrases, p);
    }
  }

  /** Every qualifier set that is ever searched in a three-line window survives line breaks. */
  lemma WindowQualifiersSplitClosed(extra: set<string>)
    requires extra <= WINDOW_EXTRAS
    ensures SplitClosed(SETUP_SAFETY + extra) && "" !in SETUP_SAFETY + extra
  {
    var phrases := SETUP_SAFETY + extra;
    forall p | p in phrases
      ensures CutsQualify(phrases, p)
    {
      if p in SETUP_SAFETY {
        SetupSafetyCuts(phrases, p);
      } else {
        ExtraCuts(phrases, p);
      }
    }
  }

  // The sets are well-formed, so that a search in them means what SearchMeans says.

  lemma SmallIsLower(p: string)
    requires forall c :: c in p ==> !IsCapital(c)
    ensures Lower(p) == p
  {
    assert forall k :: 0 <= k < |p| ==> p[k] in p;
  }

  lemma SetupSafetyIsWellFormed()
    ensures WellFormed(SETUP_SAFETY)
  {
    forall p | p in SETUP_SAFETY
      ensures IsWellFormed(p)
    {
      forall c | c in p
        ensures !IsCapital(c)
      {
      }
      SmallIsLower(p);
    }
  }

  lemma MaintainerHandoffIsWellFormed()
    ensures WellFormed(MAINTAINER_HANDOFF_EXTRA)
  {
    forall p | p in MAINTAINER_HANDOFF_EXTRA
      ensures IsWellFormed(p)
    {
      forall c | c in p
        ensures !IsCapital(c)
      {
      }
      SmallIsLower(p);
    }
  }

  lemma ReleaseCandidateIsWellFormed()
    ensures WellFormed(RELEASE_CANDIDATE_EXTRA)
  {
    forall p | p in RELEASE_CANDIDATE_EXTRA
      ensures IsWellFormed(p)
    {
      forall c | c in p
        ensures !IsCapital(c)
      {
      }
      SmallIsLower(p);
    }
  }

  lemma RoadmapIsWellFormed()
    ensures WellFormed(ROADMAP_EXTRA)
  {
    forall p | p in ROADMAP_EXTRA
      ensures IsWellFormed(p)
    {
      forall c | c in p
        ensures !IsCapital(c)
      {
      }
      SmallIsLower(p);
    }
  }

  lemma SecurityGapIsWellFormed()
    ensures WellFormed(SECURITY_GAP)
  {
    forall p | p in SECURITY_GAP
      ensures IsWellFormed(p)
    {
      forall c | c in p
        ensures !IsCapital(c)
      {
      }
      SmallIsLower(p);
    }
  }

  lemma NegatedIsWellFormed()
    ensures WellFormed(NEGATED)
  {
    forall p | p in NEGATED
      ensures IsWellFormed(p)
    {
      forall c | c in p
        ensures !IsCapital(c)
      {
      }
      SmallIsLower(p);
    }
  }

  /** The security-gap qualifier has no such protection: it is safe only because it is searched in
      single lines. Broken over two lines, "future work" qualifies the window but neither line. */
  lemma SecurityGapNeedsWholeLine()
    ensures !SplitClosed(SECURITY_GAP)
    ensures Search(SECURITY_GAP, Join(["future", "work"], ' ')) && !SearchAny(SECURITY_GAP, ["future", "work"])
  {
    var lines := ["future", "work"];
    assert lines[1..] == ["work"];
    assert Join(lines, ' ') == "future work";
    assert PhraseAt("future work", "future work", 0);
    forall p, i | p in SECURITY_GAP ensures !PhraseAt(p, "future", i) && !PhraseAt(p, "work", i) {
      SingleWordMatch(p, "future", i);
      SingleWordMatch(p, "work", i);
    }
    assert "future work"[..6] == "future" && "future work"[7..] == "work";
    assert "future work"[6] == ' ';
    assert !CutsQualify(SECURITY_GAP, "future work") by {
      assert !Search(SECURITY_GAP, "future") && !Search(SECURITY_GAP, "work");
    }
  }

  /** In a text made of one word, only the whole word can match. */
  lemma SingleWordMatch(p: string, word: string, i: int)
    requires p != "" && forall k :: 0 <= k < |word| ==> IsWord(word[k])
    ensures PhraseAt(p, word, i) ==> |p| == |word| && LowerChar(word[0]) == p[0]
  {
  }
}
