/** The text auditor as a whole: its first sixteen line-scan blocks, each followed by whatever other checks
    stand between it and the next, and what a run over files makes of them. */
module TextAudit {
  import opened Qualifiers
  import opened Paths
  import opened Sequences
  import opened PathCascade
  import opened LineBlocks

  /** The expressions, the splitting into lines, and the checks that follow each block, all arbitrary. */
  datatype Texts = Texts(
    matches: Matcher,
    lines: string -> seq<string>,
    others: (Block, Parts, string) -> seq<SafetyIssue>)

  function Description(issue: LineIssue): string {
    match issue
    case HandoffPrivateMaterial => "versioned release handoff contains private material"
    case HandoffImpliesRelease => "versioned release handoff implies live release or approval"
    case MaintainerPrivateMaterial => "maintainer handoff contains private material"
    case MaintainerPrivateRecord => "maintainer handoff contains a private record"
    case MaintainerImpliesRelease => "maintainer handoff implies live release or approval"
    case RoadmapPrivateMaterial => "post-release roadmap contains private issue or review material"
    case RoadmapImpliesCompletion => "post-release roadmap implies completed work or approval"
    case CandidateExposesPublishing => "release candidate exposes publishing material"
    case CandidateImpliesRelease => "release candidate implies live release or approval"
    case VersionPrepExposesPrivate => "version prep exposes publishing or private material"
    case VersionPrepImpliesPublication => "version prep implies build, publication, or approval"
    case DocsSiteExternal => "docs site references external services or assets"
    case DocsSiteExposesPrivate => "docs-site guidance exposes private material"
    case DocsSiteImpliesHosting => "docs-site guidance implies hosting or approval"
    case HostedUiExternal => "hosted UI references external assets or tracking"
    case HostedUiExposesPrivate => "hosted UI guidance exposes private material"
    case HostedUiImpliesDeployment => "hosted UI guidance implies deployment or approval"
    case ApiDocsExposePrivate => "API docs expose private material"
    case ApiDocsImplyApproval => "API docs imply approval or certification"
    case DemoDataImpliesUnsafeReset => "demo data guidance implies unsafe reset or approval"
    case SetupImpliesApproval => "setup guidance implies approval or certification"
    case SetupRequiresSecrets => "setup guidance requires real secrets for Demo Mode"
    case SecurityGapImpliesApproval => "security gap closeout implies certification or approval"
    case SecurityGapClaimsImplementation => "security gap closeout makes an implementation claim"
    case FinalSecurityImpliesApproval => "final security review implies certification or approval"
    case FinalSecurityPrivate => "final security review contains private material"
    case IncidentImpliesApproval => "incident review implies certification or approval"
    case IncidentPrivate => "incident review contains private evidence"
    case SupplyChainImpliesApproval => "supply-chain review implies certification or approval"
    case SupplyChainPrivate => "supply-chain review contains private material"
    case InfraImpliesApproval => "infrastructure review implies certification or approval"
    case InfraPrivate => "infrastructure review contains private material"
    case DataPolicyImpliesApproval => "data policy implies compliance, certification, or approval"
    case DataPolicyPrivate => "data policy contains private material"
  }

  function Report(path: Parts): LineIssue -> seq<SafetyIssue> {
    issue => [SafetyIssue(path, InText(Description(issue)))]
  }

  function BlockReports(b: Block, path: Parts, text: string, t: Texts): seq<SafetyIssue> {
    FlatMap(BlockIssues(b, path, t.matches, t.lines(text)), Report(path))
  }

  function Stage(path: Parts, text: string, t: Texts): Block -> seq<SafetyIssue> {
    b => BlockReports(b, path, text, t) + t.others(b, path, text)
  }

  function TextAuditor(t: Texts): (Parts, string) -> seq<SafetyIssue> {
    (path, text) => FlatMap(BLOCKS, Stage(path, text, t))
  }

  /** One block: its line loop, if the path calls for it, and the issue it reports. */
  method AuditBlock(b: Block, path: Parts, text: string, t: Texts) returns (issues: seq<SafetyIssue>)
    ensures issues == BlockReports(b, path, text, t) && |issues| <= 1
    ensures issues != [] <==> Scans(b, path) && exists i: nat, k: nat ::
              i < |t.lines(text)| && k < |ChecksOf(b)| && BreaksBlock(b, t.matches, t.lines(text), i, k)
    ensures issues != [] ==> exists i: nat, k: nat ::
              && i < |t.lines(text)| && k < |ChecksOf(b)| && BreaksBlock(b, t.matches, t.lines(text), i, k)
              && (forall h: nat :: h < k ==> !BreaksBlock(b, t.matches, t.lines(text), i, h))
              && (forall j: nat, h: nat :: j < i && h < |ChecksOf(b)| ==>
                   !BreaksBlock(b, t.matches, t.lines(text), j, h))
              && issues == [SafetyIssue(path, InText(Description(ChecksOf(b)[k].issue)))]
  {
    hide ScannerOf, ChecksOf, Description, Scans, BreaksBlock;
    ghost var line, check := BlockReportsIff(b, t.matches, t.lines(text));
    issues := [];
    var found: seq<LineIssue> := [];
    if Scans(b, path) {
      found := ScanBlock(ScannerOf(b), t.matches, t.lines(text));
    }
    assert found == BlockIssues(b, path, t.matches, t.lines(text));
    AtMostOneReport(found, path);
    if found != [] {
      issues := [SafetyIssue(path, InText(Description(found[0])))];
    }
  }

  /** The blocks one after the other, each appending to the same list, with the other checks between. */
  method AuditText(blocks: seq<Block>, path: Parts, text: string, t: Texts) returns (issues: seq<SafetyIssue>)
    ensures issues == FlatMap(blocks, Stage(path, text, t))
  {
    issues := [];
    for b := 0 to |blocks|
      invariant issues + FlatMap(blocks[b..], Stage(path, text, t)) == FlatMap(blocks, Stage(path, text, t))
    {
      FlatMapStep(issues, blocks, b, Stage(path, text, t));
      var found := AuditBlock(blocks[b], path, text, t);
      issues := issues + (found + t.others(blocks[b], path, text));
    }
  }

  lemma AtMostOneReport(found: seq<LineIssue>, path: Parts)
    requires |found| <= 1
    ensures FlatMap(found, Report(path))
         == if found == [] then [] else [SafetyIssue(path, InText(Description(found[0])))]
  {
    if found != [] {
      assert found == [found[0]];
      FlatMapSingle(found[0], Report(path));
    }
  }

  // ----- What the text auditor reports

  lemma ReportIsEmptyIff(b: Block, path: Parts, text: string, t: Texts)
    ensures BlockReports(b, path, text, t) == [] <==> BlockPasses(b, path, t.matches, t.lines(text))
    ensures |BlockReports(b, path, text, t)| <= 1
  {
    hide ScannerOf, Scans, Description;
    var lines := t.lines(text);
    BlockPassesIffLinesPass(b, path, t.matches, lines, []);
    AtMostOneIssue(b, path, t.matches, lines);
    AtMostOneReport(BlockIssues(b, path, t.matches, lines), path);
  }

  lemma AtMostOneIssue(b: Block, path: Parts, matches: Matcher, lines: seq<string>)
    ensures |BlockIssues(b, path, matches, lines)| <= 1
  {
    hide ScannerOf, Scans;
    ScanIsFirstViolation(ScannerOf(b), matches, lines, 0);
  }

  lemma StageIssuesAre(blocks: seq<Block>, path: Parts, text: string, t: Texts, issue: SafetyIssue)
    requires forall b :: b in blocks
    ensures issue in FlatMap(blocks, Stage(path, text, t)) <==>
            exists b :: issue in BlockReports(b, path, text, t) || issue in t.others(b, path, text)
  {
    hide BlockReports;
    FlatMapOfAll(blocks, Stage(path, text, t));
    forall b
      ensures issue in Stage(path, text, t)(b)
         <==> issue in BlockReports(b, path, text, t) || issue in t.others(b, path, text)
    {
    }
  }

  /** An issue is reported exactly when some block reports it or some other check does. */
  lemma TextIssuesAre(path: Parts, text: string, t: Texts, issue: SafetyIssue)
    ensures issue in TextAuditor(t)(path, text) <==>
            exists b :: issue in BlockReports(b, path, text, t) || issue in t.others(b, path, text)
  {
    hide BlockReports, Stage;
    AllBlocksListed();
    StageIssuesAre(BLOCKS, path, text, t, issue);
  }

  /** The text auditor is silent exactly when every block passes every line and no other check fires. */
  lemma TextIsSilentIff(path: Parts, text: string, t: Texts)
    ensures TextAuditor(t)(path, text) == [] <==>
            forall b :: BlockPasses(b, path, t.matches, t.lines(text)) && t.others(b, path, text) == []
  {
    hide BlockPasses, BlockReports;
    AllBlocksListed();
    FlatMapOfAll(BLOCKS, Stage(path, text, t));
    forall b
      ensures Stage(path, text, t)(b) == []
         <==> BlockPasses(b, path, t.matches, t.lines(text)) && t.others(b, path, text) == []
    {
      ReportIsEmptyIff(b, path, text, t);
    }
  }

  /** Line i is the first to break a check of the block, and k is the first check it breaks. */
  ghost predicate FirstBreak(b: Block, matches: Matcher, lines: seq<string>, i: nat, k: nat) {
    && i < |lines| && k < |ChecksOf(b)| && BreaksBlock(b, matches, lines, i, k)
    && (forall h: nat :: h < k ==> !BreaksBlock(b, matches, lines, i, h))
    && (forall j: nat, h: nat :: j < i && h < |ChecksOf(b)| ==> !BreaksBlock(b, matches, lines, j, h))
  }

  lemma FirstBreakIsUnique(b: Block, matches: Matcher, lines: seq<string>, i: nat, k: nat, j: nat, h: nat)
    requires FirstBreak(b, matches, lines, i, k) && FirstBreak(b, matches, lines, j, h)
    ensures i == j && k == h
  {
    hide BreaksBlock, ChecksOf;
  }

  /** The issue of the first check that the first such line breaks, in a text the block looks at. */
  ghost predicate Says(b: Block, path: Parts, text: string, t: Texts, issue: SafetyIssue) {
    Scans(b, path) && exists i: nat, k: nat ::
      FirstBreak(b, t.matches, t.lines(text), i, k)
      && issue == SafetyIssue(path, InText(Description(ChecksOf(b)[k].issue)))
  }

  lemma BlockReportsMean(b: Block, path: Parts, text: string, t: Texts, issue: SafetyIssue)
    ensures issue in BlockReports(b, path, text, t) <==> Says(b, path, text, t, issue)
  {
    hide Scans, ScannerOf, ChecksOf, BreaksBlock, Scan, Description;
    var lines := t.lines(text);
    var line, check := BlockReportsIff(b, t.matches, lines);
    AtMostOneIssue(b, path, t.matches, lines);
    AtMostOneReport(BlockIssues(b, path, t.matches, lines), path);
    if Scan(ScannerOf(b), t.matches, lines, 0) != [] {
      assert FirstBreak(b, t.matches, lines, line, check);
      forall i: nat, k: nat | FirstBreak(b, t.matches, lines, i, k)
        ensures k == check
      {
        FirstBreakIsUnique(b, t.matches, lines, i, k, line, check);
      }
    }
  }

  /** What the text auditor reports: what its blocks say, what the other checks say, nothing else. */
  lemma TextIssuesMean(path: Parts, text: string, t: Texts, issue: SafetyIssue)
    ensures issue in TextAuditor(t)(path, text) <==>
            exists b :: Says(b, path, text, t, issue) || issue in t.others(b, path, text)
  {
    hide *;
    TextIssuesAre(path, text, t, issue);
    forall b
      ensures issue in BlockReports(b, path, text, t) <==> Says(b, path, text, t, issue)
    {
      BlockReportsMean(b, path, text, t, issue);
    }
  }

  lemma HandoffChecks()
    ensures ChecksOf(VersionedRelease) == [
              Check(HandoffPrivateMaterial, VersionedReleasePrivateMaterial, true, false, {}),
              Check(HandoffImpliesRelease, VersionedReleaseUnsafeClaim, false, true, {})]
    ensures ContextOf(VersionedRelease) == SETUP_SAFETY + VERSIONED_RELEASE_EXTRA
    ensures "versioned-release-handoff" in Markers(VersionedRelease)
    ensures Description(HandoffImpliesRelease) == "versioned release handoff implies live release or approval"
  {
  }

  /** A handoff page with nothing but an unqualified claim is reported. */
  lemma LoneClaimIsReported(path: Parts, before: string, after: string, text: string, t: Texts, line: string)
    requires Posix(path) == before + "versioned-release-handoff" + after && t.lines(text) == [line]
    requires "tests" !in path && "services" !in path && "schemas" !in path
    requires t.matches(VersionedReleaseUnsafeClaim, line) && !t.matches(VersionedReleasePrivateMaterial, line)
    requires !Search(SETUP_SAFETY + VERSIONED_RELEASE_EXTRA, line)
    ensures SafetyIssue(path, InText("versioned release handoff implies live release or approval"))
            in TextAuditor(t)(path, text)
  {
    hide *;
    HandoffPageIsScanned(path, before, after);
    LoneClaimBreaks(t.matches, line);
    HandoffChecks();
    FirstBreakIsSaid(VersionedRelease, path, text, t, 0, 1);
  }

  lemma HandoffPageIsScanned(path: Parts, before: string, after: string)
    requires Posix(path) == before + "versioned-release-handoff" + after
    requires "tests" !in path && "services" !in path && "schemas" !in path
    ensures Scans(VersionedRelease, path)
  {
    hide Scans, Posix, Markers;
    HandoffChecks();
    ScansMeans(VersionedRelease, path);
  }

  lemma LoneClaimBreaks(matches: Matcher, line: string)
    requires matches(VersionedReleaseUnsafeClaim, line) && !matches(VersionedReleasePrivateMaterial, line)
    requires !Search(SETUP_SAFETY + VERSIONED_RELEASE_EXTRA, line)
    ensures FirstBreak(VersionedRelease, matches, [line], 0, 1)
    ensures |ChecksOf(VersionedRelease)| > 1 && ChecksOf(VersionedRelease)[1].issue == HandoffImpliesRelease
  {
    hide Search, SafeValue, ChecksOf, ContextOf, SETUP_SAFETY, VERSIONED_RELEASE_EXTRA, Markers, Description;
    HandoffChecks();
    NothingToSearch(line);
  }

  lemma FirstBreakIsSaid(b: Block, path: Parts, text: string, t: Texts, i: nat, k: nat)
    requires Scans(b, path) && FirstBreak(b, t.matches, t.lines(text), i, k) && k < |ChecksOf(b)|
    ensures SafetyIssue(path, InText(Description(ChecksOf(b)[k].issue))) in TextAuditor(t)(path, text)
  {
    hide Scans, FirstBreak, ChecksOf, Description, TextAuditor;
    TextIssuesMean(path, text, t, SafetyIssue(path, InText(Description(ChecksOf(b)[k].issue))));
    assert Says(b, path, text, t, SafetyIssue(path, InText(Description(ChecksOf(b)[k].issue))));
  }

  lemma NothingToSearch(line: string)
    ensures !Search({}, line)
  {
  }

  // ----- From one line of one file to a whole run

  /** Line `i` carries material that check `k` of block `b` looks for, and is no placeholder. */
  predicate CarriesMaterial(b: Block, k: nat, matches: Matcher, lines: seq<string>, i: nat)
    requires k < |ChecksOf(b)| && i < |lines|
  {
    && IsMaterial(ChecksOf(b)[k].pattern)
    && matches(ChecksOf(b)[k].pattern, lines[i])
    && !(ChecksOf(b)[k].exemptSafe && SafeValue(lines[i]))
  }

  lemma ReportReachesTheList(b: Block, path: Parts, text: string, t: Texts, found: LineIssue)
    requires found in BlockIssues(b, path, t.matches, t.lines(text))
    ensures SafetyIssue(path, InText(Description(found))) in TextAuditor(t)(path, text)
  {
    hide Description, BlockIssues, TextAuditor;
    var issue := SafetyIssue(path, InText(Description(found)));
    FlatMapContains(BlockIssues(b, path, t.matches, t.lines(text)), Report(path));
    assert issue in Report(path)(found);
    assert issue in BlockReports(b, path, text, t);
    TextIssuesAre(path, text, t, issue);
  }

  lemma FirstViolationIsNoLater(b: Block, k: nat, path: Parts, matches: Matcher, lines: seq<string>, i: nat)
    returns (line: nat, check: nat)
    requires k < |ChecksOf(b)| && i < |lines| && Scans(b, path) && CarriesMaterial(b, k, matches, lines, i)
    ensures FirstViolation(ScannerOf(b), matches, lines, 0, line, check) && line <= i
    ensures check < |ChecksOf(b)| && BlockIssues(b, path, matches, lines) == [ChecksOf(b)[check].issue]
  {
    MaterialIsNeverHidden(b, k, matches, lines, i);
    line, check := FindFirstViolation(ScannerOf(b), matches, lines, 0);
  }

  /** A run names every existing text file in which a line of an applicable path carries private
      material: with a path rule's issue if a rule settles the file, else with the issue of the
      block's first violation, on that line or before it. No line around it and no other file,
      check or block prevents that. */
  lemma PrivateMaterialIsReported(
      files: seq<File>, env: Environment, t: Texts, f: File, text: string, b: Block, k: nat, i: nat)
    requires env.auditText == TextAuditor(t)
    requires f in files && !Skipped(f) && f.content == Text(text) && env.tables.isTextSuffix(LowerSuffix(f.path))
    requires k < |ChecksOf(b)| && i < |t.lines(text)|
    requires Scans(b, f.path) && CarriesMaterial(b, k, t.matches, t.lines(text), i)
    ensures match Classify(f, env)
            case Settled(rule) => SafetyIssue(f.path, TrackedPath(rule)) in AllIssues(files, env)
            case _ =>
              exists line: nat, check: nat ::
                && FirstViolation(ScannerOf(b), t.matches, t.lines(text), 0, line, check) && line <= i
                && SafetyIssue(f.path, InText(Description(ScannerOf(b).checks[check].issue))) in AllIssues(files, env)
  {
    hide Scans, CarriesMaterial, Description, BlockIssues, TextAuditor;
    FlatMapContains(files, Audit(env));
    if Classify(f, env).Settled? {
      var issue := SafetyIssue(f.path, TrackedPath(Classify(f, env).rule));
      assert FileIssues(f, env) == [issue] && issue in Audit(env)(f);
    } else {
      var line, check := FirstViolationIsNoLater(b, k, f.path, t.matches, t.lines(text), i);
      var found := ChecksOf(b)[check].issue;
      ReportReachesTheList(b, f.path, text, t, found);
      assert SafetyIssue(f.path, InText(Description(found))) in Audit(env)(f);
    }
  }
}
