/** The line-scan blocks of the public-safety auditor: ordered checks on each line, a sliding
    window of preceding lines that can qualify a claim, and a stop at the first violation. */
module LineBlocks {
  import opened Strings
  import opened Qualifiers
  import opened Paths

  /** The material and claim expressions, each an arbitrary predicate on single lines. */
  datatype Pattern =
    | VersionedReleasePrivateMaterial
    | VersionedReleaseUnsafeClaim
    | MaintainerHandoffPrivateRecord
    | PostReleaseRoadmapPrivateMaterial
    | PostReleaseRoadmapUnsafeClaim
    | ReleaseCandidatePrivateMaterial
    | ReleaseCandidateUnsafeClaim
    | VersionPrepPrivateMaterial
    | VersionPrepUnsafeClaim
    | DocsSiteExternalService
    | DocsSitePrivateMaterial
    | DocsSiteUnsafeClaim
    | HostedUiExternalAsset
    | HostedUiPrivateMaterial
    | HostedUiUnsafeClaim
    | ApiDocsPrivateMaterial
    | ApiDocsUnsafeClaim
    | DemoDataUnsafeClaim
    | SetupUnsafeClaim
    | SetupDemoSecretRequirement
    | SecurityGapUnsafeClaim
    | SecurityGapImplementationClaim
    | FinalSecurityUnsafeClaim
    | FinalSecurityPrivateMaterial
    | IncidentUnsafeClaim
    | IncidentPrivateMaterial
    | SupplyChainUnsafeClaim
    | SupplyChainPrivateMaterial
    | InfraUnsafeClaim
    | InfraPrivateMaterial
    | DataPolicyUnsafeClaim
    | DataPolicyPrivateMaterial

  type Matcher = (Pattern, string) -> bool

  datatype LineIssue =
    | HandoffPrivateMaterial | HandoffImpliesRelease
    | MaintainerPrivateMaterial | MaintainerPrivateRecord | MaintainerImpliesRelease
    | RoadmapPrivateMaterial | RoadmapImpliesCompletion
    | CandidateExposesPublishing | CandidateImpliesRelease
    | VersionPrepExposesPrivate | VersionPrepImpliesPublication
    | DocsSiteExternal | DocsSiteExposesPrivate | DocsSiteImpliesHosting
    | HostedUiExternal | HostedUiExposesPrivate | HostedUiImpliesDeployment
    | ApiDocsExposePrivate | ApiDocsImplyApproval
    | DemoDataImpliesUnsafeReset
    | SetupImpliesApproval | SetupRequiresSecrets
    | SecurityGapImpliesApproval | SecurityGapClaimsImplementation
    | FinalSecurityImpliesApproval | FinalSecurityPrivate
    | IncidentImpliesApproval | IncidentPrivate
    | SupplyChainImpliesApproval | SupplyChainPrivate
    | InfraImpliesApproval | InfraPrivate
    | DataPolicyImpliesApproval | DataPolicyPrivate

  /** One `if ...: issues.append(...); break` of a block. */
  datatype Check = Check(
    issue: LineIssue,
    pattern: Pattern,
    exemptSafe: bool,         // `and not _safe_value(line)`
    respectsContext: bool,    // `and not qualified`
    lineExtra: set<string>)   // further qualifiers, searched in the line alone

  /** A block's loop: the context of a line is that line and up to `lookback` lines before it. */
  datatype Scanner = Scanner(lookback: nat, context: set<string>, checks: seq<Check>)

  const SAFE_MARKERS: set<string> := {
    "demo", "example", "fake", "must-not-appear", "placeholder", "raw-token-value", "replace_me",
    "secret-value", "synthetic", "test", "token-value"
  }

  predicate SafeValue(value: string) {
    || (exists marker :: marker in SAFE_MARKERS && Contains(Lower(value), marker))
    || StartsWith(value, "${")
    || StartsWith(value, "{")
  }

  /** A placeholder: one of the markers in it, in any letter case, or a brace in front. */
  lemma SafeValueMeans(value: string)
    ensures SafeValue(value) <==>
            || "${" <= value || "{" <= value
            || exists marker, i :: marker in SAFE_MARKERS && MarkerAt(value, marker, i)
  {
    StartsWithMeans(value, "${");
    StartsWithMeans(value, "{");
    forall marker, i | marker in SAFE_MARKERS
      ensures MarkerAt(value, marker, i) <==> OccursAt(marker, Lower(value), i)
    {
      var low := Lower(value);
      if 0 <= i <= |value| - |marker| {
        assert low[i..i + |marker|] == marker <==>
               forall k :: 0 <= k < |marker| ==> low[i..i + |marker|][k] == marker[k];
      }
    }
    if marker :| marker in SAFE_MARKERS && Contains(Lower(value), marker) {
      var i :| 0 <= i <= |value| && OccursAt(marker, Lower(value), i);
    }
    if marker, i :| marker in SAFE_MARKERS && MarkerAt(value, marker, i) {
      assert OccursAt(marker, Lower(value), i);
    }
  }

  predicate MarkerAt(value: string, marker: string, i: int) {
    0 <= i <= |value| - |marker| && forall k :: 0 <= k < |marker| ==> LowerChar(value[i + k]) == marker[k]
  }

  // ----- What one line gives

  function WindowStart(lookback: nat, i: nat): nat {
    if i < lookback then 0 else i - lookback
  }

  /** `" ".join(lines[max(0, index - lookback) : index + 1])` */
  function Context(lookback: nat, lines: seq<string>, i: nat): string
    requires i < |lines|
  {
    Join(lines[WindowStart(lookback, i)..i + 1], ' ')
  }

  predicate Qualified(s: Scanner, lines: seq<string>, i: nat)
    requires i < |lines|
  {
    Search(s.context, Context(s.lookback, lines, i))
  }

  predicate CheckFires(c: Check, matches: Matcher, line: string, qualified: bool) {
    && matches(c.pattern, line)
    && !(c.exemptSafe && SafeValue(line))
    && !(c.respectsContext && qualified)
    && !Search(c.lineExtra, line)
  }

  predicate Fires(s: Scanner, matches: Matcher, lines: seq<string>, i: nat, k: nat)
    requires i < |lines| && k < |s.checks|
  {
    CheckFires(s.checks[k], matches, lines[i], Qualified(s, lines, i))
  }

  predicate LineClean(s: Scanner, matches: Matcher, lines: seq<string>, i: nat)
    requires i < |lines|
  {
    forall k: nat :: k < |s.checks| ==> !Fires(s, matches, lines, i, k)
  }

  /** Check k at line i is the first violation at or after line `from`, lines before checks. */
  ghost predicate FirstViolation(s: Scanner, matches: Matcher, lines: seq<string>, from: nat, i: nat, k: nat) {
    && from <= i < |lines| && k < |s.checks|
    && Fires(s, matches, lines, i, k)
    && (forall j: nat :: from <= j < i ==> LineClean(s, matches, lines, j))
    && (forall h: nat :: h < k ==> !Fires(s, matches, lines, i, h))
  }

  // ----- The scan as a function

  function Verdict(checks: seq<Check>, matches: Matcher, line: string, qualified: bool): seq<LineIssue> {
    if checks == [] then []
    else if CheckFires(checks[0], matches, line, qualified) then [checks[0].issue]
    else Verdict(checks[1..], matches, line, qualified)
  }

  function Scan(s: Scanner, matches: Matcher, lines: seq<string>, from: nat): seq<LineIssue>
    requires from <= |lines|
    decreases |lines| - from
  {
    if from == |lines| then []
    else
      var verdict := Verdict(s.checks, matches, lines[from], Qualified(s, lines, from));
      if verdict != [] then verdict else Scan(s, matches, lines, from + 1)
  }

  lemma {:induction false} VerdictIsFirstCheck(checks: seq<Check>, matches: Matcher, line: string, qualified: bool)
    returns (k: nat)
    ensures Verdict(checks, matches, line, qualified) == [] ==>
      forall c :: c in checks ==> !CheckFires(c, matches, line, qualified)
    ensures Verdict(checks, matches, line, qualified) != [] ==>
      && k < |checks|
      && CheckFires(checks[k], matches, line, qualified)
      && Verdict(checks, matches, line, qualified) == [checks[k].issue]
      && forall h :: 0 <= h < k ==> !CheckFires(checks[h], matches, line, qualified)
  {
    k := 0;
    if checks != [] && !CheckFires(checks[0], matches, line, qualified) {
      var rest := VerdictIsFirstCheck(checks[1..], matches, line, qualified);
      k := rest + 1;
    }
  }

  lemma LineVerdict(s: Scanner, matches: Matcher, lines: seq<string>, i: nat) returns (k: nat)
    requires i < |lines|
    ensures var verdict := Verdict(s.checks, matches, lines[i], Qualified(s, lines, i));
      && (verdict == [] <==> LineClean(s, matches, lines, i))
      && (verdict != [] ==> FirstViolation(s, matches, lines, i, i, k) && verdict == [s.checks[k].issue])
  {
    var qualified := Qualified(s, lines, i);
    k := VerdictIsFirstCheck(s.checks, matches, lines[i], qualified);
    if Verdict(s.checks, matches, lines[i], qualified) == [] {
      forall h: nat | h < |s.checks| ensures !Fires(s, matches, lines, i, h) {
        assert s.checks[h] in s.checks;
      }
    } else {
      assert Fires(s, matches, lines, i, k);
    }
  }

  lemma {:induction false} FindFirstViolation(s: Scanner, matches: Matcher, lines: seq<string>, from: nat)
    returns (i: nat, k: nat)
    requires from <= |lines|
    ensures Scan(s, matches, lines, from) == [] ==>
      forall j: nat :: from <= j < |lines| ==> LineClean(s, matches, lines, j)
    ensures Scan(s, matches, lines, from) != [] ==>
      FirstViolation(s, matches, lines, from, i, k) && Scan(s, matches, lines, from) == [s.checks[k].issue]
    decreases |lines| - from
  {
    if from < |lines| {
      i := from;
      k := LineVerdict(s, matches, lines, from);
      if LineClean(s, matches, lines, from) {
        i, k := FindFirstViolation(s, matches, lines, from + 1);
      }
    } else {
      i, k := 0, 0;
    }
  }

  /** A scan stays silent exactly when every line passes every check; otherwise it yields one issue,
      that of the first failing check at the first failing line. */
  lemma ScanIsFirstViolation(s: Scanner, matches: Matcher, lines: seq<string>, from: nat)
    requires from <= |lines|
    ensures Scan(s, matches, lines, from) == [] <==>
      forall i: nat :: from <= i < |lines| ==> LineClean(s, matches, lines, i)
    ensures Scan(s, matches, lines, from) != [] ==>
      exists i: nat, k: nat ::
        FirstViolation(s, matches, lines, from, i, k) && Scan(s, matches, lines, from) == [s.checks[k].issue]
  {
    var i, k := FindFirstViolation(s, matches, lines, from);
    if Scan(s, matches, lines, from) != [] {
      assert !LineClean(s, matches, lines, i);
    }
  }

  lemma FirstViolationIsUnique(
      s: Scanner, matches: Matcher, lines: seq<string>, from: nat, i: nat, k: nat, j: nat, h: nat)
    requires FirstViolation(s, matches, lines, from, i, k)
    requires FirstViolation(s, matches, lines, from, j, h)
    ensures i == j && k == h
  {
    assert i < j ==> LineClean(s, matches, lines, i);
    assert j < i ==> LineClean(s, matches, lines, j);
  }

  // ----- The loop itself

  method ScanBlock(s: Scanner, matches: Matcher, lines: seq<string>) returns (issues: seq<LineIssue>)
    ensures issues == Scan(s, matches, lines, 0)
    ensures issues == [] <==> forall i: nat :: i < |lines| ==> LineClean(s, matches, lines, i)
    ensures issues != [] ==>
      exists i: nat, k: nat :: FirstViolation(s, matches, lines, 0, i, k) && issues == [s.checks[k].issue]
    ensures IsPerLine(s) ==> IsReport(s, matches, lines, issues)
  {
    hide IsReport, IsPerLine;
    ScanIsFirstViolation(s, matches, lines, 0);
    if IsPerLine(s) {
      ScanIsReport(s, matches, lines);
    }
    issues := [];
    var index := 0;
    while index < |lines|
      invariant 0 <= index <= |lines|
      invariant issues == []
      invariant Scan(s, matches, lines, index) == Scan(s, matches, lines, 0)
    {
      var line := lines[index];
      var qualified := Qualified(s, lines, index);
      var k := 0;
      while k < |s.checks|
        invariant 0 <= k <= |s.checks|
        invariant issues == []
        invariant Verdict(s.checks[k..], matches, line, qualified) == Verdict(s.checks, matches, line, qualified)
      {
        if CheckFires(s.checks[k], matches, line, qualified) {
          issues := issues + [s.checks[k].issue];
          return;
        }
        k := k + 1;
      }
      index := index + 1;
    }
  }

  // ----- Windows: locality, growth, chunking

  /** Lines further back than the window do not matter. */
  lemma ContextIsLocal(lookback: nat, lines: seq<string>, dropped: nat, i: nat)
    requires dropped + lookback <= i < |lines|
    ensures Context(lookback, lines, i) == Context(lookback, lines[dropped..], i - dropped)
  {
    assert lines[i - lookback..i + 1] == lines[dropped..][i - dropped - lookback..i - dropped + 1];
  }

  lemma ContextIgnoresWhatFollows(lookback: nat, lines: seq<string>, more: seq<string>, i: nat)
    requires i < |lines|
    ensures Context(lookback, lines + more, i) == Context(lookback, lines, i)
  {
    var start := WindowStart(lookback, i);
    assert (lines + more)[start..i + 1] == lines[start..i + 1];
  }

  /** More lines in front of a window keep every qualifier it already had. */
  lemma QualifierKeptInFront(phrases: set<string>, front: seq<string>, window: seq<string>)
    requires window != [] && Search(phrases, Join(window, ' '))
    ensures Search(phrases, Join(front + window, ' '))
  {
    if front == [] {
      assert front + window == window;
    } else {
      JoinAppend(front, window, ' ');
      SearchPieces(phrases, Join(front, ' '), Join(window, ' '));
    }
  }

  /** A claim flagged under a wide window is flagged under every narrower one. */
  lemma WiderWindowFlagsLess(s: Scanner, wider: nat, matches: Matcher, lines: seq<string>, i: nat, k: nat)
    requires s.lookback <= wider && i < |lines| && k < |s.checks|
    requires Fires(s.(lookback := wider), matches, lines, i, k)
    ensures Fires(s, matches, lines, i, k)
  {
    if Qualified(s, lines, i) {
      var far, near := WindowStart(wider, i), WindowStart(s.lookback, i);
      assert lines[far..i + 1] == lines[far..near] + lines[near..i + 1];
      QualifierKeptInFront(s.context, lines[far..near], lines[near..i + 1]);
    }
  }

  /** Lines put in front of a text can only silence a check on the text's own lines; they change
      nothing for checks that ignore the context, nor beyond the first `lookback` lines. */
  lemma PrependedLinesFlagLess(s: Scanner, matches: Matcher, front: seq<string>, lines: seq<string>, i: nat, k: nat)
    requires i < |lines| && k < |s.checks|
    ensures Fires(s, matches, front + lines, |front| + i, k) ==> Fires(s, matches, lines, i, k)
    ensures i >= s.lookback || !s.checks[k].respectsContext ==>
      (Fires(s, matches, front + lines, |front| + i, k) <==> Fires(s, matches, lines, i, k))
  {
    var all := front + lines;
    assert all[|front| + i] == lines[i];
    if i >= s.lookback {
      ContextIsLocal(s.lookback, all, |front|, |front| + i);
      assert all[|front|..] == lines;
    } else if Qualified(s, lines, i) {
      var start := WindowStart(s.lookback, |front| + i);
      assert all[start..|front| + i + 1] == all[start..|front|] + lines[0..i + 1];
      QualifierKeptInFront(s.context, all[start..|front|], lines[0..i + 1]);
    }
  }

  /** The last lines of a text that can still be in the context of a line appended to it. */
  function Carry(lookback: nat, lines: seq<string>): (r: seq<string>) {
    if |lines| <= lookback then lines else lines[|lines| - lookback..]
  }

  lemma {:induction false} ScanIsLocal(s: Scanner, matches: Matcher, lines: seq<string>, dropped: nat, from: nat)
    requires dropped + s.lookback <= from <= |lines|
    ensures Scan(s, matches, lines, from) == Scan(s, matches, lines[dropped..], from - dropped)
    decreases |lines| - from
  {
    if from < |lines| {
      ContextIsLocal(s.lookback, lines, dropped, from);
      assert lines[dropped..][from - dropped] == lines[from];
      ScanIsLocal(s, matches, lines, dropped, from + 1);
    }
  }

  lemma {:induction false} ScanOfPrefix(s: Scanner, matches: Matcher, a: seq<string>, b: seq<string>, from: nat)
    requires from <= |a|
    ensures Scan(s, matches, a + b, from) ==
      if Scan(s, matches, a, from) != [] then Scan(s, matches, a, from) else Scan(s, matches, a + b, |a|)
    decreases |a| - from
  {
    if from < |a| {
      ContextIgnoresWhatFollows(s.lookback, a, b, from);
      assert (a + b)[from] == a[from];
      ScanOfPrefix(s, matches, a, b, from + 1);
    }
  }

  /** Scanning in chunks: a fired chunk settles the result, a silent one passes on only its last
      `lookback` lines. */
  lemma ScanInChunks(s: Scanner, matches: Matcher, a: seq<string>, b: seq<string>)
    ensures Scan(s, matches, a + b, 0) ==
      if Scan(s, matches, a, 0) != [] then Scan(s, matches, a, 0)
      else Scan(s, matches, Carry(s.lookback, a) + b, |Carry(s.lookback, a)|)
  {
    hide Scan;
    ScanOfPrefix(s, matches, a, b, 0);
    if |a| > s.lookback {
      ScanIsLocal(s, matches, a + b, |a| - s.lookback, |a|);
      assert (a + b)[|a| - s.lookback..] == Carry(s.lookback, a) + b;
    }
  }

  // ----- The streaming form: one pass, one counter instead of a window

  /** `since` counts the lines since the last line that held a qualifier. */
  function Stream(s: Scanner, matches: Matcher, lines: seq<string>, since: nat): seq<LineIssue> {
    if lines == [] then []
    else
      var now := if Search(s.context, lines[0]) then 0 else since + 1;
      var verdict := Verdict(s.checks, matches, lines[0], now <= s.lookback);
      if verdict != [] then verdict else Stream(s, matches, lines[1..], now)
  }

  predicate Recent(s: Scanner, lines: seq<string>, i: nat)
    requires i < |lines|
  {
    SearchAny(s.context, lines[WindowStart(s.lookback, i)..i + 1])
  }

  /** What the counter knows before line i. */
  ghost predicate Counts(s: Scanner, lines: seq<string>, i: nat, since: nat)
    requires i <= |lines|
  {
    && (forall j :: 0 <= j < i && i - since <= j ==> !Search(s.context, lines[j]))
    && (since <= s.lookback ==> since < i && Search(s.context, lines[i - since - 1]))
  }

  lemma CounterStep(s: Scanner, lines: seq<string>, i: nat, since: nat)
    requires i < |lines| && Counts(s, lines, i, since)
    ensures var now := if Search(s.context, lines[i]) then 0 else since + 1;
      && Counts(s, lines, i + 1, now)
      && (now <= s.lookback <==> Recent(s, lines, i))
  {
    var now := if Search(s.context, lines[i]) then 0 else since + 1;
    var start := WindowStart(s.lookback, i);
    var window := lines[start..i + 1];
    if now <= s.lookback {
      assert window[i - now - start] == lines[i - now];
    } else {
      forall j | 0 <= j < |window| ensures !Search(s.context, window[j]) {
        assert window[j] == lines[start + j];
      }
    }
  }

  lemma {:induction false} StreamFollowsScan(s: Scanner, matches: Matcher, lines: seq<string>, i: nat, since: nat)
    requires i <= |lines| && Counts(s, lines, i, since)
    requires forall j: nat :: j < |lines| ==> (Qualified(s, lines, j) <==> Recent(s, lines, j))
    ensures Stream(s, matches, lines[i..], since) == Scan(s, matches, lines, i)
    decreases |lines| - i
  {
    if i < |lines| {
      CounterStep(s, lines, i, since);
      assert lines[i..][0] == lines[i] && lines[i..][1..] == lines[i + 1..];
      StreamFollowsScan(s, matches, lines, i + 1, if Search(s.context, lines[i]) then 0 else since + 1);
    }
  }

  /** The window can be searched line by line: it is one line, or its phrases survive line breaks. */
  ghost predicate IsPerLine(s: Scanner) {
    s.lookback == 0 || (SplitClosed(s.context) && "" !in s.context)
  }

  lemma QualifiedIsRecent(s: Scanner, lines: seq<string>, i: nat)
    requires IsPerLine(s) && i < |lines|
    ensures Qualified(s, lines, i) <==> Recent(s, lines, i)
  {
    var window := lines[WindowStart(s.lookback, i)..i + 1];
    if s.lookback == 0 {
      assert window == [lines[i]] && window[0] == lines[i];
    } else {
      if SearchAny(s.context, window) {
        JoinKeepsQualifier(s.context, window);
      }
      if Search(s.context, Join(window, ' ')) {
        JoinAddsNoQualifier(s.context, window);
      }
    }
  }

  /** The streaming scanner finds exactly what the windowed one finds, whatever the material and
      claim expressions are, when the context phrases are split-closed or the window is one line. */
  lemma StreamEqualsScan(s: Scanner, matches: Matcher, lines: seq<string>)
    requires IsPerLine(s)
    ensures Stream(s, matches, lines, s.lookback + 1) == Scan(s, matches, lines, 0)
  {
    forall j: nat | j < |lines| ensures Qualified(s, lines, j) <==> Recent(s, lines, j) {
      QualifiedIsRecent(s, lines, j);
    }
    StreamFollowsScan(s, matches, lines, 0, s.lookback + 1);
    assert lines[0..] == lines;
  }

  // ----- When a line is reported, said of the lines themselves

  /** Line i breaks check c: its expression matches, nothing exempts the line, and where the check
      respects qualifiers none of the lines in reach, up to this one, carries one. */
  ghost predicate Breaks(
    c: Check, context: set<string>, lookback: nat, matches: Matcher, lines: seq<string>, i: nat)
    requires i < |lines|
  {
    && matches(c.pattern, lines[i])
    && (c.exemptSafe ==> !SafeValue(lines[i]))
    && (c.respectsContext ==> forall j :: 0 <= j <= i <= j + lookback ==> !Search(context, lines[j]))
    && !Search(c.lineExtra, lines[i])
  }

  lemma FiresMeans(s: Scanner, matches: Matcher, lines: seq<string>, i: nat, k: nat)
    requires IsPerLine(s) && i < |lines| && k < |s.checks|
    ensures Fires(s, matches, lines, i, k) <==> Breaks(s.checks[k], s.context, s.lookback, matches, lines, i)
  {
    QualifiedIsRecent(s, lines, i);
    RecentMeans(s, lines, i);
  }

  lemma RecentMeans(s: Scanner, lines: seq<string>, i: nat)
    requires i < |lines|
    ensures Recent(s, lines, i) <==> exists j :: 0 <= j <= i <= j + s.lookback && Search(s.context, lines[j])
  {
    var start := WindowStart(s.lookback, i);
    var window := lines[start..i + 1];
    if Recent(s, lines, i) {
      var k :| 0 <= k < |window| && Search(s.context, window[k]);
      assert window[k] == lines[start + k];
    }
    if j :| 0 <= j <= i <= j + s.lookback && Search(s.context, lines[j]) {
      assert window[j - start] == lines[j];
    }
  }

  /** Nothing is reported when no line breaks a check, else the first check that the first line breaks. */
  ghost predicate IsReport(s: Scanner, matches: Matcher, lines: seq<string>, issues: seq<LineIssue>) {
    && (issues == [] ==>
         forall i: nat, k: nat :: i < |lines| && k < |s.checks| ==>
           !Breaks(s.checks[k], s.context, s.lookback, matches, lines, i))
    && (issues != [] ==>
         exists line: nat, check: nat ::
           && line < |lines| && check < |s.checks| && issues == [s.checks[check].issue]
           && Breaks(s.checks[check], s.context, s.lookback, matches, lines, line)
           && (forall h: nat :: h < check ==> !Breaks(s.checks[h], s.context, s.lookback, matches, lines, line))
           && (forall i: nat, h: nat :: i < line && h < |s.checks| ==>
                !Breaks(s.checks[h], s.context, s.lookback, matches, lines, i)))
  }

  lemma ScanIsReport(s: Scanner, matches: Matcher, lines: seq<string>)
    requires IsPerLine(s)
    ensures IsReport(s, matches, lines, Scan(s, matches, lines, 0))
  {
    hide Breaks, Scan;
    var line, check := ScanReportsIff(s, matches, lines);
  }

  /** A scan reports something exactly when some line breaks some check; and what it reports is the
      first check that the first such line breaks. */
  lemma ScanReportsIff(s: Scanner, matches: Matcher, lines: seq<string>) returns (line: nat, check: nat)
    requires IsPerLine(s)
    ensures Scan(s, matches, lines, 0) != [] <==>
            exists i: nat, k: nat ::
              i < |lines| && k < |s.checks| && Breaks(s.checks[k], s.context, s.lookback, matches, lines, i)
    ensures Scan(s, matches, lines, 0) != [] ==>
              && line < |lines| && check < |s.checks|
              && Breaks(s.checks[check], s.context, s.lookback, matches, lines, line)
              && Scan(s, matches, lines, 0) == [s.checks[check].issue]
              && (forall h: nat :: h < check ==>
                   !Breaks(s.checks[h], s.context, s.lookback, matches, lines, line))
              && (forall i: nat, h: nat :: i < line && h < |s.checks| ==>
                   !Breaks(s.checks[h], s.context, s.lookback, matches, lines, i))
  {
    hide Breaks, Scan;
    forall i: nat, k: nat | i < |lines| && k < |s.checks|
      ensures Fires(s, matches, lines, i, k) <==> Breaks(s.checks[k], s.context, s.lookback, matches, lines, i)
    {
      FiresMeans(s, matches, lines, i, k);
    }
    hide Fires;
    forall i: nat | i < |lines|
      ensures LineClean(s, matches, lines, i) <==>
              forall k: nat :: k < |s.checks| ==> !Breaks(s.checks[k], s.context, s.lookback, matches, lines, i)
    {
      forall k: nat | k < |s.checks|
        ensures Fires(s, matches, lines, i, k) <==> Breaks(s.checks[k], s.context, s.lookback, matches, lines, i)
      {
      }
    }
    ScanIsFirstViolation(s, matches, lines, 0);
    line, check := FindFirstViolation(s, matches, lines, 0);
    if Scan(s, matches, lines, 0) == [] {
      forall i: nat, k: nat | i < |lines| && k < |s.checks|
        ensures !Breaks(s.checks[k], s.context, s.lookback, matches, lines, i)
      {
        assert LineClean(s, matches, lines, i);
      }
    } else {
      forall i: nat, h: nat | i < line && h < |s.checks|
        ensures !Breaks(s.checks[h], s.context, s.lookback, matches, lines, i)
      {
        assert LineClean(s, matches, lines, i);
      }
    }
  }

  // ----- The first sixteen blocks of the auditor that scan lines and stop at the first violation

  datatype Block =
    | VersionedRelease | MaintainerHandoff | PostReleaseRoadmap | ReleaseCandidate | VersionPrep
    | DocsSite | HostedUi | ApiDocs | DemoData | Setup | SecurityGap | FinalSecurity | Incident
    | SupplyChain | Infrastructure | DataPolicy

  /** In the order of the source. */
  const BLOCKS: seq<Block> := [
    VersionedRelease, MaintainerHandoff, PostReleaseRoadmap, ReleaseCandidate, VersionPrep,
    DocsSite, HostedUi, ApiDocs, DemoData, Setup, SecurityGap, FinalSecurity, Incident,
    SupplyChain, Infrastructure, DataPolicy
  ]

  function Markers(b: Block): set<string> {
    match b
    case VersionedRelease => {
      "versioned-release-handoff", "versioned_release_handoff", "release-notes-draft",
      "release_notes_draft", "release-scope-summary", "release_scope_summary",
      "maintainer-release-decision-checklist", "maintainer_release_decision_checklist",
      "post-release-checklist", "post_release_checklist"
    }
    case MaintainerHandoff => {
      "maintainer-handoff", "maintainer_handoff", "maintainer-quickstart", "maintainer_quickstart",
      "maintainer-review-checklist", "maintainer_review_checklist", "maintainer-command-plan",
      "maintainer_command_plan", "maintainer-decision-log-template", "maintainer_decision_log_template"
    }
    case PostReleaseRoadmap => {
      "post-release-roadmap", "post_release_roadmap", "known-limitations-register",
      "known_limitations_register", "future-work-backlog", "future_work_backlog",
      "private-review-backlog", "private_review_backlog", "pre-tag-reminder-checklist",
      "pre_tag_reminder_checklist"
    }
    case ReleaseCandidate => {"release-candidate", "release_candidate", "rc-checklist", "rc-readiness"}
    case VersionPrep => {
      "version-prep", "version_prep", "version-source", "package-metadata", "release-boundary"
    }
    case DocsSite => {
      "docs-site-polish", "docs_site_polish", "docs-reader", "docs-navigation", "docs_navigation"
    }
    case HostedUi => {"hosted-ui", "hosted_ui", "hosted-page", "hosted_page"}
    case ApiDocs => {"api-docs", "api_docs", "api-route", "api_route", "openapi-local"}
    case DemoData => {"demo-data", "demo_data", "demo-seed", "demo-reset"}
    case Setup => {
      "setup-experience", "setup_experience", "local-installer-guide", "first-run-checklist",
      "setup-troubleshooting-guide", "setup-command-map"
    }
    case SecurityGap => {
      "security-gap-closeout", "security_gap_closeout", "privacy-review-template",
      "encryption-at-rest-guidance", "private-security-action-register",
      "known-limitations-closeout", "policy-implementation-matrix"
    }
    case FinalSecurity => {
      "final-security", "final_security", "security-readiness", "security-gap-register",
      "private-security-review", "security-domain-matrix"
    }
    case Incident => {
      "incident-response", "incident_response", "incident-runbook", "audit-log-boundary",
      "forensics-evidence"
    }
    case SupplyChain => {"supply-chain", "supply_chain", "dependency-boundary", "package-surface"}
    case Infrastructure => {
      "infra-security", "infra_security", "secret-boundary", "storage-boundary", "database-boundary"
    }
    case DataPolicy => {"data-policy", "data_policy", "retention-redaction"}
  }

  function Material(issue: LineIssue, pattern: Pattern, exemptSafe: bool): Check {
    Check(issue, pattern, exemptSafe, false, {})
  }

  function Claim(issue: LineIssue, pattern: Pattern): Check {
    Check(issue, pattern, false, true, {})
  }

  /** Lines of context in front of the scanned line: `lines[max(0, index - 2) : index + 1]`, or none. */
  function Lookback(b: Block): nat {
    match b
    case VersionedRelease | MaintainerHandoff | ReleaseCandidate | VersionPrep | DocsSite | HostedUi => 2
    case _ => 0
  }

  function ContextOf(b: Block): set<string> {
    match b
    case VersionedRelease => SETUP_SAFETY + VERSIONED_RELEASE_EXTRA
    case MaintainerHandoff => SETUP_SAFETY + MAINTAINER_HANDOFF_EXTRA
    case PostReleaseRoadmap => SETUP_SAFETY + ROADMAP_EXTRA
    case ReleaseCandidate | VersionPrep => SETUP_SAFETY + RELEASE_CANDIDATE_EXTRA
    case DocsSite => SETUP_SAFETY + DOCS_SITE_EXTRA
    case HostedUi | ApiDocs | DemoData | Setup => SETUP_SAFETY
    case SecurityGap => SECURITY_GAP
    case FinalSecurity | Incident | SupplyChain | Infrastructure | DataPolicy => NEGATED
  }

  /** In the order in which the source tests them. */
  function ChecksOf(b: Block): seq<Check> {
    match b
    case VersionedRelease => [
      Material(HandoffPrivateMaterial, VersionedReleasePrivateMaterial, true),
      Claim(HandoffImpliesRelease, VersionedReleaseUnsafeClaim)]
    case MaintainerHandoff => [
      Material(MaintainerPrivateMaterial, VersionedReleasePrivateMaterial, true),
      Material(MaintainerPrivateRecord, MaintainerHandoffPrivateRecord, true),
      Claim(MaintainerImpliesRelease, VersionedReleaseUnsafeClaim)]
    case PostReleaseRoadmap => [
      Material(RoadmapPrivateMaterial, PostReleaseRoadmapPrivateMaterial, true),
      Claim(RoadmapImpliesCompletion, PostReleaseRoadmapUnsafeClaim)]
    case ReleaseCandidate => [
      Material(CandidateExposesPublishing, ReleaseCandidatePrivateMaterial, false),
      Claim(CandidateImpliesRelease, ReleaseCandidateUnsafeClaim)]
    case VersionPrep => [
      Material(VersionPrepExposesPrivate, VersionPrepPrivateMaterial, false),
      Claim(VersionPrepImpliesPublication, VersionPrepUnsafeClaim)]
    case DocsSite => [
      Claim(DocsSiteExternal, DocsSiteExternalService),
      Material(DocsSiteExposesPrivate, DocsSitePrivateMaterial, false),
      Claim(DocsSiteImpliesHosting, DocsSiteUnsafeClaim)]
    case HostedUi => [
      Claim(HostedUiExternal, HostedUiExternalAsset).(lineExtra := DOCS_SITE_EXTRA),
      Material(HostedUiExposesPrivate, HostedUiPrivateMaterial, false),
      Claim(HostedUiImpliesDeployment, HostedUiUnsafeClaim)]
    case ApiDocs => [
      Material(ApiDocsExposePrivate, ApiDocsPrivateMaterial, false),
      Claim(ApiDocsImplyApproval, ApiDocsUnsafeClaim)]
    case DemoData => [Claim(DemoDataImpliesUnsafeReset, DemoDataUnsafeClaim)]
    case Setup => [
      Claim(SetupImpliesApproval, SetupUnsafeClaim),
      Claim(SetupRequiresSecrets, SetupDemoSecretRequirement)]
    case SecurityGap => [
      Claim(SecurityGapImpliesApproval, SecurityGapUnsafeClaim),
      Claim(SecurityGapClaimsImplementation, SecurityGapImplementationClaim)]
    case FinalSecurity => [
      Claim(FinalSecurityImpliesApproval, FinalSecurityUnsafeClaim),
      Material(FinalSecurityPrivate, FinalSecurityPrivateMaterial, true)]
    case Incident => [
      Claim(IncidentImpliesApproval, IncidentUnsafeClaim),
      Material(IncidentPrivate, IncidentPrivateMaterial, true)]
    case SupplyChain => [
      Claim(SupplyChainImpliesApproval, SupplyChainUnsafeClaim),
      Material(SupplyChainPrivate, SupplyChainPrivateMaterial, true)]
    case Infrastructure => [
      Claim(InfraImpliesApproval, InfraUnsafeClaim),
      Material(InfraPrivate, InfraPrivateMaterial, true)]
    case DataPolicy => [
      Claim(DataPolicyImpliesApproval, DataPolicyUnsafeClaim),
      Material(DataPolicyPrivate, DataPolicyPrivateMaterial, true)]
  }

  function ScannerOf(b: Block): Scanner {
    Scanner(Lookback(b), ContextOf(b), ChecksOf(b))
  }

  predicate IsMaterial(p: Pattern) {
    p in {
      VersionedReleasePrivateMaterial, MaintainerHandoffPrivateRecord, PostReleaseRoadmapPrivateMaterial,
      ReleaseCandidatePrivateMaterial, VersionPrepPrivateMaterial, DocsSitePrivateMaterial,
      HostedUiPrivateMaterial, ApiDocsPrivateMaterial, FinalSecurityPrivateMaterial,
      IncidentPrivateMaterial, SupplyChainPrivateMaterial, InfraPrivateMaterial, DataPolicyPrivateMaterial
    }
  }

  const EXCLUDED_PARTS: set<string> := {"tests", "services", "schemas"}

  predicate Scans(b: Block, path: Parts) {
    && (exists marker :: marker in Markers(b) && Contains(Posix(path), marker))
    && !HasPart(path, EXCLUDED_PARTS)
  }

  /** A block looks at a path whose text names one of its markers, unless it leads through code or tests. */
  lemma ScansMeans(b: Block, path: Parts)
    ensures Scans(b, path) ==>
              && "tests" !in path && "services" !in path && "schemas" !in path
              && exists marker, before: string, after: string ::
                   marker in Markers(b) && Posix(path) == before + marker + after
    ensures forall marker, before: string, after: string ::
              && marker in Markers(b) && Posix(path) == before + marker + after
              && "tests" !in path && "services" !in path && "schemas" !in path
              ==> Scans(b, path)
  {
    hide Markers, Posix, Contains;
    if Scans(b, path) {
      var marker :| marker in Markers(b) && Contains(Posix(path), marker);
      var before, after := ContainsMeans(Posix(path), marker);
    }
    forall marker, before: string, after: string | marker in Markers(b) && Posix(path) == before + marker + after
      ensures Contains(Posix(path), marker)
    {
      SplitContains(before, marker, after);
    }
  }

  function BlockIssues(b: Block, path: Parts, matches: Matcher, lines: seq<string>): seq<LineIssue> {
    if Scans(b, path) then Scan(ScannerOf(b), matches, lines, 0) else []
  }

  lemma WindowedContexts(b: Block)
    requires Lookback(b) > 0
    ensures SplitClosed(ContextOf(b)) && "" !in ContextOf(b)
  {
    match b
    case VersionedRelease => WindowQualifiersSplitClosed(VERSIONED_RELEASE_EXTRA);
    case MaintainerHandoff => WindowQualifiersSplitClosed(MAINTAINER_HANDOFF_EXTRA);
    case ReleaseCandidate | VersionPrep => WindowQualifiersSplitClosed(RELEASE_CANDIDATE_EXTRA);
    case DocsSite => WindowQualifiersSplitClosed(DOCS_SITE_EXTRA);
    case HostedUi =>
      WindowQualifiersSplitClosed({});
      assert SETUP_SAFETY + {} == SETUP_SAFETY;
  }

  lemma BlocksArePerLine(b: Block)
    ensures IsPerLine(ScannerOf(b))
  {
    if Lookback(b) > 0 {
      WindowedContexts(b);
    }
  }

  /** What a search for a block's qualifiers means, by SearchMeans. */
  lemma ContextsAreWellFormed(b: Block)
    ensures WellFormed(ContextOf(b))
  {
    hide IsWellFormed;
    SetupSafetyIsWellFormed();
    MaintainerHandoffIsWellFormed();
    ReleaseCandidateIsWellFormed();
    RoadmapIsWellFormed();
    SecurityGapIsWellFormed();
    NegatedIsWellFormed();
  }

  /** Line i breaks check k of a block: the expression of that check matches the line, the line is no
      placeholder where that exempts it, none of the block's qualifiers stands on the line or within
      its reach before it where that excuses it, and none of the check's own stands on the line. */
  ghost predicate BreaksBlock(b: Block, matches: Matcher, lines: seq<string>, i: nat, k: nat)
    requires i < |lines| && k < |ChecksOf(b)|
  {
    var c := ChecksOf(b)[k];
    && matches(c.pattern, lines[i])
    && (c.exemptSafe ==> !SafeValue(lines[i]))
    && (c.respectsContext ==> forall j :: 0 <= j <= i && i - Lookback(b) <= j ==> !Search(ContextOf(b), lines[j]))
    && !Search(c.lineExtra, lines[i])
  }

  predicate LooksBack(b: Block) {
    b in {VersionedRelease, MaintainerHandoff, ReleaseCandidate, VersionPrep, DocsSite, HostedUi}
  }

  /** In six blocks a qualifier two lines up excuses a claim; in none does one three lines up. */
  lemma BlocksReachTwoLines(b: Block, matches: Matcher, lines: seq<string>, i: nat, k: nat, other: string)
    requires i < |lines| && k < |ChecksOf(b)|
    ensures LooksBack(b) && i >= 2 && ChecksOf(b)[k].respectsContext && Search(ContextOf(b), lines[i - 2])
            ==> !BreaksBlock(b, matches, lines, i, k)
    ensures i >= 3 ==>
              (BreaksBlock(b, matches, lines[i - 3 := other], i, k) <==> BreaksBlock(b, matches, lines, i, k))
  {
    hide ChecksOf, ContextOf, Search, SafeValue;
    if i >= 3 {
      var changed := lines[i - 3 := other];
      assert forall j :: 0 <= j <= i && i - Lookback(b) <= j ==> changed[j] == lines[j];
    }
  }

  /** In the other ten blocks no line but the claim's own matters. */
  lemma BlocksReachOneLine(b: Block, matches: Matcher, lines: seq<string>, i: nat, k: nat)
    requires i < |lines| && k < |ChecksOf(b)| && !LooksBack(b)
    ensures BreaksBlock(b, matches, lines, i, k) <==>
            && matches(ChecksOf(b)[k].pattern, lines[i])
            && !(ChecksOf(b)[k].exemptSafe && SafeValue(lines[i]))
            && !(ChecksOf(b)[k].respectsContext && Search(ContextOf(b), lines[i]))
            && !Search(ChecksOf(b)[k].lineExtra, lines[i])
  {
    hide ChecksOf, ContextOf, Search, SafeValue;
    assert Lookback(b) == 0;
  }

  /** A block reports something exactly when some line breaks some check, and then the issue of the
      first check broken by the first such line. */
  lemma BlockReportsIff(b: Block, matches: Matcher, lines: seq<string>) returns (line: nat, check: nat)
    ensures Scan(ScannerOf(b), matches, lines, 0) != [] <==>
            exists i: nat, k: nat :: i < |lines| && k < |ChecksOf(b)| && BreaksBlock(b, matches, lines, i, k)
    ensures Scan(ScannerOf(b), matches, lines, 0) != [] ==>
              && line < |lines| && check < |ChecksOf(b)|
              && BreaksBlock(b, matches, lines, line, check)
              && Scan(ScannerOf(b), matches, lines, 0) == [ChecksOf(b)[check].issue]
              && (forall h: nat :: h < check ==> !BreaksBlock(b, matches, lines, line, h))
              && (forall i: nat, h: nat :: i < line && h < |ChecksOf(b)| ==> !BreaksBlock(b, matches, lines, i, h))
  {
    hide Scan, SafeValue, Search, ContextOf, ChecksOf, Lookback;
    BlocksArePerLine(b);
    line, check := ScanReportsIff(ScannerOf(b), matches, lines);
    forall i: nat, k: nat | i < |lines| && k < |ChecksOf(b)|
      ensures BreaksBlock(b, matches, lines, i, k)
         <==> Breaks(ChecksOf(b)[k], ContextOf(b), Lookback(b), matches, lines, i)
    {
    }
  }

  /** Each of the auditor's blocks could drop its window for a counter. */
  lemma BlocksCanStream(b: Block, matches: Matcher, lines: seq<string>)
    ensures Stream(ScannerOf(b), matches, lines, Lookback(b) + 1) == Scan(ScannerOf(b), matches, lines, 0)
  {
    BlocksArePerLine(b);
    StreamEqualsScan(ScannerOf(b), matches, lines);
  }

  lemma UnqualifiedCheckReports(s: Scanner, matches: Matcher, lines: seq<string>, i: nat, k: nat)
    requires k < |s.checks| && !s.checks[k].respectsContext && s.checks[k].lineExtra == {}
    requires i < |lines| && matches(s.checks[k].pattern, lines[i])
    requires s.checks[k].exemptSafe ==> !SafeValue(lines[i])
    ensures !LineClean(s, matches, lines, i) && Scan(s, matches, lines, 0) != []
  {
    assert !Search({}, lines[i]);
    assert Fires(s, matches, lines, i, k);
    assert !LineClean(s, matches, lines, i);
    ScanIsFirstViolation(s, matches, lines, 0);
  }

  lemma MaterialChecksIgnoreQualifiers(b: Block, k: nat)
    requires k < |ChecksOf(b)| && IsMaterial(ChecksOf(b)[k].pattern)
    ensures !ChecksOf(b)[k].respectsContext && ChecksOf(b)[k].lineExtra == {}
  {
  }

  /** No qualifier hides private material: a line that carries it makes its block report something,
      whatever lines stand around it. */
  lemma MaterialIsNeverHidden(b: Block, k: nat, matches: Matcher, lines: seq<string>, i: nat)
    requires k < |ChecksOf(b)| && IsMaterial(ChecksOf(b)[k].pattern)
    requires i < |lines| && matches(ChecksOf(b)[k].pattern, lines[i])
    requires ChecksOf(b)[k].exemptSafe ==> !SafeValue(lines[i])
    ensures !LineClean(ScannerOf(b), matches, lines, i) && Scan(ScannerOf(b), matches, lines, 0) != []
  {
    MaterialChecksIgnoreQualifiers(b, k);
    UnqualifiedCheckReports(ScannerOf(b), matches, lines, i, k);
  }

  predicate BlockPasses(b: Block, path: Parts, matches: Matcher, lines: seq<string>) {
    Scans(b, path) ==> forall i: nat :: i < |lines| ==> LineClean(ScannerOf(b), matches, lines, i)
  }

  /** A block passes a text exactly when it does not apply or every line is clean, and what it
      reports about a text it still reports when lines are appended. */
  lemma BlockPassesIffLinesPass(b: Block, path: Parts, matches: Matcher, lines: seq<string>, more: seq<string>)
    ensures BlockIssues(b, path, matches, lines) == [] <==> BlockPasses(b, path, matches, lines)
    ensures BlockIssues(b, path, matches, lines) != [] ==>
      BlockIssues(b, path, matches, lines + more) == BlockIssues(b, path, matches, lines)
  {
    hide ScannerOf, Scans;
    ScanIsFirstViolation(ScannerOf(b), matches, lines, 0);
    ScanInChunks(ScannerOf(b), matches, lines, more);
  }

  lemma AllBlocksListed()
    ensures forall b: Block :: b in BLOCKS
  {
    forall b: Block
      ensures b in BLOCKS
    {
      BlockListed(b);
    }
  }

  lemma BlockListed(b: Block)
    ensures b in BLOCKS
  {
    match b
    case VersionedRelease => assert BLOCKS[0] == b;
    case MaintainerHandoff => assert BLOCKS[1] == b;
    case PostReleaseRoadmap => assert BLOCKS[2] == b;
    case ReleaseCandidate => assert BLOCKS[3] == b;
    case VersionPrep => assert BLOCKS[4] == b;
    case DocsSite => assert BLOCKS[5] == b;
    case HostedUi => assert BLOCKS[6] == b;
    case ApiDocs => assert BLOCKS[7] == b;
    case DemoData => assert BLOCKS[8] == b;
    case Setup => assert BLOCKS[9] == b;
    case SecurityGap => assert BLOCKS[10] == b;
    case FinalSecurity => assert BLOCKS[11] == b;
    case Incident => assert BLOCKS[12] == b;
    case SupplyChain => assert BLOCKS[13] == b;
    case Infrastructure => assert BLOCKS[14] == b;
    case DataPolicy => assert BLOCKS[15] == b;
  }
}
