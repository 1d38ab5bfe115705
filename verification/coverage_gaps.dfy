/** Files on which the path checks part ways: for each kind of gap, the general reason and a path. */
module CoverageGaps {
  import opened Strings
  import opened Paths
  import opened CascadeTables
  import opened PathCascade
  import opened UsabilityAudit
  import opened WorkspaceGitSafety
  import opened TableFacts
  import opened TableShapes
  import opened AuditCoverage
  import opened Exemptions

  /** No name, suffix or ending of any rule fits such a file name. */
  predicate HasQuietName(path: Parts) {
    |Name(path)| <= 6 && (LowerSuffix(path) == ".md" || LowerSuffix(path) == ".log")
  }

  predicate IsWorkflow(path: Parts) {
    |path| >= 2 && path[..2] == [".github", "workflows"]
  }

  /** No rule lists a part of the path. */
  ghost predicate IsUnlisted(path: Parts, isPart: Rule -> string -> bool) {
    forall rule, part :: part in path ==> !isPart(rule)(part)
  }

  /** Only the rule for private paths lists a part of the path. */
  ghost predicate IsPrivateAtMost(path: Parts, isPart: Rule -> string -> bool) {
    forall rule, part :: part in path && rule != PrivateOutputPath ==> !isPart(rule)(part)
  }

  lemma QuietNameLooksLike(rule: Rule, path: Parts, tables: Tables)
    requires tables.isName == IsName && tables.isSuffix == IsSuffix && tables.isEnding == IsEnding
    requires HasQuietName(path)
    ensures LooksLike(rule, path, tables) <==> HasListedPart(rule, path, tables)
  {
    hide IsName, IsSuffix, IsEnding;
    if tables.isName(rule)(Name(path)) {
      NamesAreLong(rule, Name(path));
    }
    if k :| 0 <= k <= |Name(path)| && tables.isEnding(rule)(Name(path)[k..]) {
      EndingsAreLong(rule, Name(path)[k..]);
    }
    MarkdownIsUnlisted(rule);
    LogSuffixUnlisted(rule);
  }

  /** What can settle a file with a quiet name: a listed part, unless it is exempt. */
  lemma QuietFile(rule: Rule, f: File, env: Environment)
    requires env.tables.isName == IsName && env.tables.isSuffix == IsSuffix && env.tables.isEnding == IsEnding
    requires HasQuietName(f.path) && !IsWorkflow(f.path)
    ensures Applies(rule, f, env) ==>
              && HasListedPart(rule, f.path, env.tables)
              && !(rule == PrivateOutputPath && Exempt(f.path))
  {
    hide IsName, IsSuffix, IsEnding, HasListedPart, LooksLike, Exempt, Name, LowerSuffix;
    QuietNameLooksLike(rule, f.path, env.tables);
  }

  /** A file that no rule applies to is left to the text scan, if it is text at all. */
  lemma NoRuleApplies(f: File, env: Environment)
    requires !Skipped(f) && forall rule :: !Applies(rule, f, env)
    ensures !ReportedOnce(f, env)
    ensures FileIssues(f, env)
         == if env.tables.isTextSuffix(LowerSuffix(f.path)) && f.content.Text?
            then env.auditText(f.path, f.content.text) else []
  {
    hide Applies;
    ReportedIffSomeRuleApplies(f, env);
    OneOutcomePerFile(f, env, env.auditText);
  }

  /** A quiet file is missed when no rule lists a part of its path, or when only the rule for private
      paths does and the path is exempt from it. */
  lemma QuietFileIsMissed(f: File, env: Environment)
    requires env.tables == TABLES && !Skipped(f) && HasQuietName(f.path) && !IsWorkflow(f.path)
    requires IsUnlisted(f.path, IsPart) || (Exempt(f.path) && IsPrivateAtMost(f.path, IsPart))
    ensures !ReportedOnce(f, env)
    ensures FileIssues(f, env)
         == if LowerSuffix(f.path) == ".md" && f.content.Text? then env.auditText(f.path, f.content.text) else []
  {
    hide IsPart, IsName, IsSuffix, IsEnding, IsTextSuffix;
    forall rule
      ensures !Applies(rule, f, env)
    {
      hide Applies;
      QuietFile(rule, f, env);
    }
    NoRuleApplies(f, env);
    MarkdownIsUnlisted(PrivateOutputPath);
    LogSuffixUnlisted(PrivateOutputPath);
  }

  /** A root that has no say: absolute or empty, and none of its parts listed. */
  ghost predicate IsQuietRoot(root: Parts) {
    (root == [] || root[0] == "/") && IsUnlisted(root, IsPart)
  }

  // ----- Capital letters

  /** No rule lists a part with a capital letter, while the usability auditor lowers the parts first:
      a path with capitals in every part is left to the text scan, whatever it names in lower case. */
  lemma PartsWithCapitalsAreMissed(root: Parts, relative: Parts, f: File, env: Environment)
    requires IsQuietRoot(root) && IsRelative(relative) && f.path == root + relative
    requires env.tables == TABLES && !Skipped(f) && HasQuietName(relative)
    requires forall part :: part in relative ==> HasCapital(part)
    ensures !ReportedOnce(f, env)
    ensures FileIssues(f, env) ==
            if LowerSuffix(relative) == ".md" && f.content.Text? then env.auditText(f.path, f.content.text) else []
  {
    hide IsPart, HasCapital;
    RootKeepsName(root, relative);
    forall rule, part | part in f.path
      ensures !IsPart(rule)(part)
    {
      if part in relative && IsPart(rule)(part) {
        ListedPartsAreSmall(rule, part);
      }
    }
    assert IsWorkflow(f.path) ==> f.path[0] == ".github";
    SmallWorkflow();
    QuietFileIsMissed(f, env);
  }

  lemma SmallWorkflow()
    ensures !HasCapital(".github") && ".github" != "/"
  {
  }

  function SitePage(): Parts {
    ["Site", "A.md"]
  }

  /** Generated output that the usability auditor fails and the safety auditor never sees as such. */
  lemma SitePageIsMissed(root: Parts, f: File, env: Environment)
    requires IsQuietRoot(root) && f.path == root + SitePage()
    requires env.tables == TABLES && !Skipped(f) && f.content.Text?
    ensures IsGeneratedOutput(SitePage(), OUTPUT_TABLES)
    ensures !ReportedOnce(f, env) && FileIssues(f, env) == env.auditText(f.path, f.content.text)
  {
    hide IsPart, IsUnlisted, IsGeneratedOutput, ReportedOnce, HasCapital, IsQuietRoot;
    SitePageIsGenerated();
    SitePageHasCapitals();
    NameOfA(SitePage(), "A.md", ".md");
    PartsWithCapitalsAreMissed(root, SitePage(), f, env);
  }

  lemma SitePageHasCapitals()
    ensures IsRelative(SitePage()) && forall part :: part in SitePage() ==> HasCapital(part)
  {
    assert 'S' in "Site" && 'A' in "A.md";
  }

  lemma SitePageIsGenerated()
    ensures IsGeneratedOutput(SitePage(), OUTPUT_TABLES)
  {
    hide IsGeneratedEnding, IsUnsafeSuffix;
    assert Lower("Site") == "site" && IsGeneratedPart("site");
    assert LowerParts(SitePage())[0] == "site";
  }

  lemma NameOfA(path: Parts, name: string, suffix: string)
    requires path != [] && path[|path| - 1] == name && name == "A" + suffix
    requires suffix == ".md" || suffix == ".log"
    ensures Name(path) == name && LowerSuffix(path) == suffix && HasQuietName(path)
  {
    assert name[1] == '.' && forall k :: 1 < k < |name| ==> name[k] != '.';
    assert LastDot(name) == 1;
    assert Lower(suffix) == suffix;
    assert name[1..] == suffix;
  }

  // ----- Log files

  /** A log file that the usability auditor fails as an unsafe artifact passes without a word. */
  lemma LogFileIsMissed(root: Parts, f: File, env: Environment)
    requires IsQuietRoot(root) && f.path == root + ["A.log"]
    requires env.tables == TABLES && !Skipped(f)
    ensures IsUnsafeArtifact(["A.log"], OUTPUT_TABLES)
    ensures !ReportedOnce(f, env) && FileIssues(f, env) == []
  {
    hide IsPart, IsUnlisted, ReportedOnce, IsGeneratedPart, IsGeneratedEnding;
    NameOfA(["A.log"], "A.log", ".log");
    assert 'A' in "A.log";
    PartsWithCapitalsAreMissed(root, ["A.log"], f, env);
  }

  // ----- The fake example workspace

  lemma ShortPartsAreNoOutputs(rule: Rule, part: string)
    requires rule != PrivateOutputPath
    requires |part| <= 12 || part == "private-workspace" || part == "private-workspaces"
    ensures !IsPart(rule)(part)
  {
    hide IsPart;
    if IsPart(rule)(part) {
      PartsOfOtherRules(rule, part);
    }
  }

  function LookAlike(): Parts {
    ["examples", "private-workspaces"] + ["site", "A.md"]
  }

  lemma LookAlikeIsGenerated()
    ensures IsGeneratedOutput(LookAlike(), OUTPUT_TABLES)
  {
    hide IsGeneratedEnding, IsUnsafeSuffix;
    LookAlikeIsExempt([], ["site", "A.md"]);
    assert Lower("site") == "site" && IsGeneratedPart("site");
    assert LowerParts(LookAlike())[2] == "site";
  }

  lemma LookAlikeIsPrivateAtMost(root: Parts)
    requires IsUnlisted(root, IsPart)
    ensures IsPrivateAtMost(root + LookAlike(), IsPart)
  {
    hide IsPart;
    forall rule, part | part in root + LookAlike() && rule != PrivateOutputPath
      ensures !IsPart(rule)(part)
    {
      if part !in root {
        ShortPartsAreNoOutputs(rule, part);
      }
    }
  }

  /** A look-alike of the fake workspace: the usability auditor fails it, the safety auditor's
      substring exempts it from the one rule that lists one of its parts. */
  lemma LookAlikeIsMissed(root: Parts, f: File, env: Environment)
    requires IsQuietRoot(root) && f.path == root + LookAlike()
    requires env.tables == TABLES && !Skipped(f) && f.content.Text?
    ensures IsGeneratedOutput(LookAlike(), OUTPUT_TABLES)
    ensures !ReportedOnce(f, env) && FileIssues(f, env) == env.auditText(f.path, f.content.text)
  {
    hide IsPart, IsUnlisted, IsPrivateAtMost, ReportedOnce, IsGeneratedOutput, Exempt;
    LookAlikeIsGenerated();
    LookAlikeIsPrivateAtMost(root);
    LookAlikeIsExempt(root, ["site", "A.md"]);
    NameOfA(f.path, "A.md", ".md");
    assert f.path[0] == "/" || f.path[0] == "examples";
    QuietFileIsMissed(f, env);
  }

  /** A root that ends in "examples" hides a workspace file which the git check calls unsafe. */
  lemma WorkspaceBelowExamplesIsMissed(front: Parts, f: File, env: Environment)
    requires IsQuietRoot(front) && f.path == (front + ["examples"]) + ["private-workspace", "A.md"]
    requires env.tables == TABLES && !Skipped(f) && f.content.Text?
    ensures IsUnsafe(["private-workspace", "A.md"])
    ensures !CaughtElsewhere(f, env) && !ReportedOnce(f, env)
    ensures FileIssues(f, env) == env.auditText(f.path, f.content.text)
  {
    hide IsPart, IsPrivateAtMost, Exempt, IsUnsafe, ReportedOnce, Applies;
    NameOfA(f.path, "A.md", ".md");
    SubstringCrossesTheRoot(front, "A.md");
    WorkspaceIsPrivateAtMost(front, f.path);
    QuietFileIsMissed(f, env);
    ReportedIffSomeRuleApplies(f, env);
  }

  lemma WorkspaceIsPrivateAtMost(front: Parts, path: Parts)
    requires IsQuietRoot(front) && path == (front + ["examples"]) + ["private-workspace", "A.md"]
    ensures IsPrivateAtMost(path, IsPart) && !IsWorkflow(path)
  {
    hide IsPart;
    assert path[0] == "/" || path[0] == "examples";
    assert |"/"| != |".github"| && |"examples"| != |".github"|;
    assert path[..2][0] == path[0];
    forall rule, part | part in path && rule != PrivateOutputPath
      ensures !IsPart(rule)(part)
    {
      if part !in front {
        ShortPartsAreNoOutputs(rule, part);
      }
    }
  }

  // ----- Skipped files

  /** The safety auditor's loop passes over its own file name wherever it stands, and over everything
      that is no file; neither of the other checks does. */
  lemma SkippedFileIsMissed(f: File, env: Environment)
    requires Name(f.path) == "audit_public_safety.py" || !f.isFile
    ensures !ReportedOnce(f, env) && FileIssues(f, env) == []
  {
    hide Applies;
    ReportedIffSomeRuleApplies(f, env);
  }

  function OwnName(): Parts {
    ["site", "audit_public_safety.py"]
  }

  /** Generated output under the auditor's own name passes without a word, below any root. */
  lemma OwnNameIsMissed(root: Parts, f: File, env: Environment)
    requires f.path == root + OwnName()
    ensures IsGeneratedOutput(OwnName(), OUTPUT_TABLES)
    ensures !ReportedOnce(f, env) && FileIssues(f, env) == []
  {
    hide IsGeneratedOutput, ReportedOnce;
    OwnNameIsGenerated();
    SkippedFileIsMissed(f, env);
  }

  lemma OwnNameIsGenerated()
    ensures IsGeneratedOutput(OwnName(), OUTPUT_TABLES)
  {
    hide IsGeneratedEnding, IsUnsafeSuffix;
    assert Lower("site") == "site" && IsGeneratedPart("site");
    assert LowerParts(OwnName())[0] == "site";
    assert OwnName()[..2][0] == "site" && |"site"| != |"examples"|;
  }
}
