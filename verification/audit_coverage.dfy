/** Where the three separately maintained path checks agree: what the usability auditor or the git
    check refuses, the public-safety auditor reports, and exactly where it does not. */
module AuditCoverage {
  import opened Strings
  import opened Paths
  import opened Sequences
  import opened CascadeTables
  import opened PathCascade
  import opened UsabilityAudit
  import opened WorkspaceGitSafety
  import opened TableFacts

  /** Some rule settles the file, so that the auditor reports it once and never reads its text. */
  ghost predicate ReportedOnce(f: File, env: Environment) {
    && (exists rule :: FileIssues(f, env) == [SafetyIssue(f.path, TrackedPath(rule))])
    && forall other: (Parts, string) -> seq<SafetyIssue> ::
      FileIssues(f, env.(auditText := other)) == FileIssues(f, env)
  }

  lemma SettledIsReportedOnce(f: File, env: Environment, rule: Rule)
    requires !Skipped(f) && Applies(rule, f, env)
    ensures ReportedOnce(f, env)
  {
    SettledIffSomeRuleApplies(f, env);
    forall other: (Parts, string) -> seq<SafetyIssue>
      ensures FileIssues(f, env.(auditText := other)) == FileIssues(f, env)
    {
      OneOutcomePerFile(f, env, other);
    }
    assert FileIssues(f, env) == [SafetyIssue(f.path, TrackedPath(Classify(f, env).rule))];
  }

  lemma ReportedIffSomeRuleApplies(f: File, env: Environment)
    ensures ReportedOnce(f, env) <==> !Skipped(f) && exists rule :: Applies(rule, f, env)
    ensures !ReportedOnce(f, env) ==> !Classify(f, env).Settled?
    ensures Skipped(f) ==> FileIssues(f, env) == []
  {
    SettledIffSomeRuleApplies(f, env);
    if Skipped(f) {
      assert FileIssues(f, env) == [];
    } else if rule :| Applies(rule, f, env) {
      SettledIsReportedOnce(f, env, rule);
    } else {
      var silent: (Parts, string) -> seq<SafetyIssue> := (path, text) => [];
      RulesIgnoreTextAuditor(f, env, silent);
      assert FileIssues(f, env.(auditText := silent)) == [];
    }
  }

  // ----- The usability auditor against the safety auditor, for any tables that agree

  ghost predicate OutputTablesAgree(outputs: OutputTables, tables: Tables) {
    && (forall part :: outputs.isPart(part) ==> CoveredPart(part, tables.isPart))
    && (forall ending :: outputs.isEnding(ending) ==> CoveredEnding(ending, tables.isEnding))
  }

  lemma TablesOfTheSourceAgree(outputs: OutputTables, tables: Tables)
    requires outputs.isPart == IsGeneratedPart && outputs.isEnding == IsGeneratedEnding
    requires tables.isPart == IsPart && tables.isEnding == IsEnding
    ensures OutputTablesAgree(outputs, tables)
  {
    forall part | outputs.isPart(part) ensures CoveredPart(part, tables.isPart) {
      GeneratedPartCovered(part);
    }
    forall ending | outputs.isEnding(ending) ensures CoveredEnding(ending, tables.isEnding) {
      GeneratedEndingCovered(ending);
    }
  }

  lemma CoveredEndingApplies(f: File, env: Environment, k: int) returns (rule: Rule)
    requires 0 <= k <= |Name(f.path)| && CoveredEnding(Name(f.path)[k..], env.tables.isEnding)
    ensures Applies(rule, f, env)
  {
    var ending := Name(f.path)[k..];
    rule :|
      && rule !in {GithubWorkflow, DocsConfigTracking, PrivateWorkspaceOutput, PrivateOutputPath}
      && env.tables.isEnding(rule)(ending);
    assert LooksLike(rule, f.path, env.tables);
  }

  lemma CoveredPartApplies(f: File, env: Environment, part: string) returns (rule: Rule)
    requires part in f.path && CoveredPart(part, env.tables.isPart) && !Exempt(f.path)
    ensures Applies(rule, f, env)
  {
    rule :| rule in {PrivateOutputPath, ThreatModelOutput, DemoDataOutput} && env.tables.isPart(rule)(part);
    assert LooksLike(rule, f.path, env.tables);
  }

  /** Where the agreement of the tables reaches: every path refused by its ending, and every path
      outside the fake example workspace with a refused part, as that part is written. */
  lemma AgreeingTablesCover(root: Parts, relative: Parts, f: File, env: Environment, outputs: OutputTables)
    requires IsRelative(relative) && f.path == root + relative
    requires !Skipped(f) && OutputTablesAgree(outputs, env.tables)
    ensures HasGeneratedEnding(relative, outputs) ==> ReportedOnce(f, env)
    ensures HasGeneratedPart(relative, outputs) && !Exempt(f.path) ==> ReportedOnce(f, env)
  {
    RootKeepsName(root, relative);
    if HasGeneratedEnding(relative, outputs) {
      var k :| 0 <= k <= |Name(relative)| && outputs.isEnding(Name(relative)[k..]);
      var rule := CoveredEndingApplies(f, env, k);
      SettledIsReportedOnce(f, env, rule);
    }
    if HasGeneratedPart(relative, outputs) && !Exempt(f.path) {
      var part :| part in relative && outputs.isPart(part);
      var rule := CoveredPartApplies(f, env, part);
      SettledIsReportedOnce(f, env, rule);
    }
  }

  /** Some rule other than the two that the fake example workspace is exempt from. */
  ghost predicate CaughtElsewhere(f: File, env: Environment) {
    exists rule :: rule !in {PrivateWorkspaceOutput, PrivateOutputPath} && Applies(rule, f, env)
  }

  predicate LooksPrivate(path: Parts, tables: Tables) {
    LooksLike(PrivateOutputPath, path, tables) || LooksLike(PrivateWorkspaceOutput, path, tables)
  }

  lemma SomeRuleAppliesIff(f: File, env: Environment)
    ensures (exists rule :: Applies(rule, f, env))
       <==> CaughtElsewhere(f, env) || (!Exempt(f.path) && LooksPrivate(f.path, env.tables))
  {
    hide LooksLike, Exempt;
    assert Applies(PrivateOutputPath, f, env)
      <==> LooksLike(PrivateOutputPath, f.path, env.tables) && !Exempt(f.path);
    assert Applies(PrivateWorkspaceOutput, f, env)
      <==> LooksLike(PrivateWorkspaceOutput, f.path, env.tables) && !Exempt(f.path);
  }

  /** A path below any root that the usability auditor fails as generated output. The safety auditor
      reports it exactly once, without reading its text, if and only if its loop does not skip it and
      a rule without exemption catches it or it looks private outside the fake example workspace. If
      not skipped, every path failed by its ending is reported, exempt or not, and every path outside
      the fake workspace that has a generated part as written, such as any path in lower case. */
  lemma GeneratedOutputIsReported(root: Parts, relative: Parts, f: File, env: Environment)
    requires IsRelative(relative) && f.path == root + relative && env.tables == TABLES
    requires IsGeneratedOutput(relative, OUTPUT_TABLES)
    ensures ReportedOnce(f, env) <==>
            !Skipped(f) && (CaughtElsewhere(f, env) || (!Exempt(f.path) && LooksPrivate(f.path, env.tables)))
    ensures !Skipped(f) && HasGeneratedEnding(relative, OUTPUT_TABLES) ==> ReportedOnce(f, env)
    ensures !Skipped(f) && HasGeneratedPart(relative, OUTPUT_TABLES) && !Exempt(f.path) ==> ReportedOnce(f, env)
    ensures !Skipped(f) && LowerParts(relative) == relative && !Exempt(f.path) ==> ReportedOnce(f, env)
  {
    ReportedIffSomeRuleApplies(f, env);
    SomeRuleAppliesIff(f, env);
    TablesOfTheSourceAgree(OUTPUT_TABLES, env.tables);
    if !Skipped(f) {
      AgreeingTablesCover(root, relative, f, env, OUTPUT_TABLES);
    }
  }

  // ----- Unsafe artifacts: one suffix falls through

  /** No rule and no text scan looks for ".log" as a suffix, nor for a whole name that ends so. */
  ghost predicate IgnoresLogs(tables: Tables) {
    && (forall rule :: !tables.isSuffix(rule)(".log"))
    && !tables.isTextSuffix(".log")
    && forall rule, name :: tables.isName(rule)(name) ==> name != "" && LowerChar(name[|name| - 1]) != 'g'
  }

  lemma SourceIgnoresLogs(tables: Tables)
    requires tables.isSuffix == IsSuffix && tables.isName == IsName && tables.isTextSuffix == IsTextSuffix
    ensures IgnoresLogs(tables)
  {
    forall rule ensures !tables.isSuffix(rule)(".log") && !tables.isTextSuffix(".log") {
      LogSuffixUnlisted(rule);
    }
    forall rule, name | tables.isName(rule)(name)
      ensures name != "" && LowerChar(name[|name| - 1]) != 'g'
    {
      NamesAreNoLogs(rule, name);
    }
  }

  predicate ByPlaceOrEnding(rule: Rule, f: File, env: Environment) {
    match rule
    case GithubWorkflow => Applies(rule, f, env)
    case DocsConfigTracking => false
    case PrivateWorkspaceOutput | PrivateOutputPath =>
      (HasListedPart(rule, f.path, env.tables) || HasListedEnding(rule, f.path, env.tables)) && !Exempt(f.path)
    case _ => HasListedPart(rule, f.path, env.tables) || HasListedEnding(rule, f.path, env.tables)
  }

  /** What can still report a file that no suffix, whole name or text scan catches: where it lies,
      and the endings the rules list. */
  ghost predicate CaughtByPlaceOrEnding(f: File, env: Environment) {
    exists rule :: ByPlaceOrEnding(rule, f, env)
  }

  lemma LogName(path: Parts)
    requires LowerSuffix(path) == ".log"
    ensures Name(path) != "" && LowerChar(Name(path)[|Name(path)| - 1]) == 'g' && Name(path) != "mkdocs.yml"
  {
    assert LowerSuffix(path)[3] == 'g';
  }

  lemma LogLooksLike(rule: Rule, path: Parts, tables: Tables)
    requires IgnoresLogs(tables) && LowerSuffix(path) == ".log"
    ensures LooksLike(rule, path, tables) <==> HasListedPart(rule, path, tables) || HasListedEnding(rule, path, tables)
  {
    LogName(path);
  }

  lemma LogRule(rule: Rule, f: File, env: Environment)
    requires IgnoresLogs(env.tables) && LowerSuffix(f.path) == ".log"
    ensures Applies(rule, f, env) <==> ByPlaceOrEnding(rule, f, env)
  {
    LogName(f.path);
    LogLooksLike(rule, f.path, env.tables);
  }

  lemma LogArtifact(f: File, env: Environment)
    requires IgnoresLogs(env.tables) && LowerSuffix(f.path) == ".log"
    ensures ReportedOnce(f, env) <==> !Skipped(f) && CaughtByPlaceOrEnding(f, env)
    ensures !ReportedOnce(f, env) ==> FileIssues(f, env) == []
  {
    forall rule ensures Applies(rule, f, env) <==> ByPlaceOrEnding(rule, f, env) {
      LogRule(rule, f, env);
    }
    ReportedIffSomeRuleApplies(f, env);
  }

  lemma SuffixApplies(f: File, env: Environment) returns (rule: Rule)
    requires CoveredSuffix(LowerSuffix(f.path), env.tables.isSuffix)
    ensures Applies(rule, f, env)
  {
    rule :| rule in {LocalDatabase, DatabaseDump, CertificateOrInfraState, BinaryFile}
      && env.tables.isSuffix(rule)(LowerSuffix(f.path));
    assert LooksLike(rule, f.path, env.tables);
  }

  /** An artifact that the usability auditor refuses by its suffix is reported once by the safety
      auditor, even in the fake example workspace, unless its loop skips the file, and except for
      ".log" files: those are reported exactly when their place or their ending is listed as well.
      What is not reported passes without a word. */
  lemma UnsafeArtifactIsReported(root: Parts, relative: Parts, f: File, env: Environment)
    requires IsRelative(relative) && f.path == root + relative && env.tables == TABLES
    requires IsUnsafeArtifact(relative, OUTPUT_TABLES)
    ensures ReportedOnce(f, env) <==>
            !Skipped(f) && (LowerSuffix(relative) == ".log" ==> CaughtByPlaceOrEnding(f, env))
    ensures !ReportedOnce(f, env) ==> FileIssues(f, env) == []
  {
    RootKeepsName(root, relative);
    ReportedIffSomeRuleApplies(f, env);
    if LowerSuffix(relative) == ".log" {
      SourceIgnoresLogs(env.tables);
      LogArtifact(f, env);
    } else {
      UnsafeSuffixCovered(LowerSuffix(relative));
      var rule := SuffixApplies(f, env);
      if !Skipped(f) {
        SettledIsReportedOnce(f, env, rule);
      }
    }
  }

  // ----- The git check against the safety auditor

  ghost predicate WorkspaceTablesAgree(tables: Tables) {
    && (forall part :: IsPrivatePart(part) ==> tables.isPart(PrivateOutputPath)(part))
    && (forall ending :: ending in PRIVATE_SUFFIXES ==> tables.isEnding(PrivateWorkspaceOutput)(ending))
  }

  lemma WorkspaceTablesOfTheSourceAgree(tables: Tables)
    requires tables.isPart == IsPart && tables.isEnding == IsEnding
    ensures WorkspaceTablesAgree(tables)
  {
    forall part | IsPrivatePart(part) ensures tables.isPart(PrivateOutputPath)(part) {
      WorkspacePartCovered(part);
      PartTables();
    }
    forall ending | ending in PRIVATE_SUFFIXES ensures tables.isEnding(PrivateWorkspaceOutput)(ending) {
      WorkspaceSuffixCovered(ending);
    }
  }

  lemma UnsafeItemLooksPrivate(root: Parts, item: Parts, tables: Tables)
    requires IsRelative(item) && WorkspaceTablesAgree(tables) && IsUnsafe(item)
    ensures LooksLike(PrivateOutputPath, root + item, tables) || LooksLike(PrivateWorkspaceOutput, root + item, tables)
  {
    RootKeepsName(root, item);
    if part :| part in item && IsPrivatePart(part) {
      assert part in root + item;
      assert HasListedPart(PrivateOutputPath, root + item, tables);
    } else {
      var ending :| ending in PRIVATE_SUFFIXES && EndsWith(Name(item), ending);
      var k := |Name(item)| - |ending|;
      assert Name(item)[k..] == ending;
      assert HasListedEnding(PrivateWorkspaceOutput, root + item, tables);
    }
  }

  lemma ExemptionSwitchesOffTwoRules(f: File, env: Environment)
    requires Exempt(f.path)
    ensures (exists rule :: Applies(rule, f, env)) <==> CaughtElsewhere(f, env)
  {
    assert !Applies(PrivateWorkspaceOutput, f, env);
    assert !Applies(PrivateOutputPath, f, env);
  }

  lemma UnsafeItemApplies(root: Parts, item: Parts, f: File, env: Environment) returns (rule: Rule)
    requires IsRelative(item) && f.path == root + item && WorkspaceTablesAgree(env.tables)
    requires IsUnsafe(item) && !Exempt(f.path)
    ensures Applies(rule, f, env)
  {
    UnsafeItemLooksPrivate(root, item, env.tables);
    rule := if LooksLike(PrivateOutputPath, f.path, env.tables) then PrivateOutputPath else PrivateWorkspaceOutput;
  }

  lemma UnsafeItem(root: Parts, item: Parts, f: File, env: Environment)
    requires IsRelative(item) && f.path == root + item && WorkspaceTablesAgree(env.tables)
    requires IsUnsafe(item)
    ensures ReportedOnce(f, env) <==> !Skipped(f) && (!Exempt(f.path) || CaughtElsewhere(f, env))
  {
    ReportedIffSomeRuleApplies(f, env);
    if Exempt(f.path) {
      ExemptionSwitchesOffTwoRules(f, env);
    } else {
      var rule := UnsafeItemApplies(root, item, f, env);
    }
  }

  /** A path that the git check calls unsafe is reported once by the safety auditor exactly when its
      loop does not skip the file and it lies outside the fake example workspace or some other rule
      catches it. */
  lemma UnsafeWorkspacePathIsReported(root: Parts, item: Parts, f: File, env: Environment)
    requires IsRelative(item) && f.path == root + item && env.tables == TABLES
    requires IsUnsafe(item)
    ensures ReportedOnce(f, env) <==> !Skipped(f) && (!Exempt(f.path) || CaughtElsewhere(f, env))
  {
    WorkspaceTablesOfTheSourceAgree(env.tables);
    UnsafeItem(root, item, f, env);
  }

  // ----- A run of one auditor against a run of the other

  /** The run of the safety auditor names the file by a path rule. */
  ghost predicate Names(files: seq<File>, env: Environment, path: Parts) {
    exists rule :: SafetyIssue(path, TrackedPath(rule)) in AllIssues(files, env)
  }

  lemma ReportedFileIsNamed(files: seq<File>, env: Environment, f: File)
    requires f in files && ReportedOnce(f, env)
    ensures Names(files, env, f.path)
  {
    var rule :| FileIssues(f, env) == [SafetyIssue(f.path, TrackedPath(rule))];
    FlatMapContains(files, Audit(env));
    assert SafetyIssue(f.path, TrackedPath(rule)) in Audit(env)(f);
  }

  /** What one run finds the other names, if its loop does not skip the file: a generated output,
      unless only lowering its parts or overlooking the fake workspace made it one, and an unsafe
      artifact, unless it is a log file. */
  lemma FindingsAreNamed(
      root: Parts, tracked: seq<Parts>, repository: Repository, files: seq<File>, env: Environment,
      finding: Finding, f: File)
    requires env.tables == TABLES && finding in Findings(tracked, OUTPUT_TABLES, repository)
    requires IsRelative(finding.path) && f in files && f.path == root + finding.path && !Skipped(f)
    ensures finding.GeneratedOutput? && HasGeneratedEnding(finding.path, OUTPUT_TABLES) ==> Names(files, env, f.path)
    ensures finding.GeneratedOutput? && HasGeneratedPart(finding.path, OUTPUT_TABLES) && !Exempt(f.path) ==>
              Names(files, env, f.path)
    ensures finding.UnsafeArtifact? && LowerSuffix(finding.path) != ".log" ==> Names(files, env, f.path)
  {
    hide Applies, ReportedOnce, HasGeneratedEnding, HasGeneratedPart, Exempt;
    FindingsAreDue(tracked, OUTPUT_TABLES, repository);
    if finding.GeneratedOutput? {
      GeneratedOutputIsReported(root, finding.path, f, env);
    }
    if finding.UnsafeArtifact? {
      UnsafeArtifactIsReported(root, finding.path, f, env);
    }
    if ReportedOnce(f, env) {
      ReportedFileIsNamed(files, env, f);
    }
  }

  /** A silent run of the safety auditor over files that include a failed one leaves four reasons:
      the loop skips the file, only lowering its parts fails it, the path is exempt, or it is a log. */
  lemma SilenceLeavesTheGaps(
      root: Parts, tracked: seq<Parts>, repository: Repository, files: seq<File>, env: Environment,
      finding: Finding, f: File)
    requires env.tables == TABLES && AllIssues(files, env) == []
    requires finding in Findings(tracked, OUTPUT_TABLES, repository)
    requires IsRelative(finding.path) && f in files && f.path == root + finding.path
    ensures finding.GeneratedOutput? ==>
              || Skipped(f)
              || (&& !HasGeneratedEnding(finding.path, OUTPUT_TABLES)
                  && (HasGeneratedPart(finding.path, OUTPUT_TABLES) ==> Exempt(f.path)))
    ensures finding.UnsafeArtifact? ==> Skipped(f) || LowerSuffix(finding.path) == ".log"
  {
    hide HasGeneratedEnding, HasGeneratedPart, Exempt, Skipped;
    if !Skipped(f) {
      FindingsAreNamed(root, tracked, repository, files, env, finding, f);
    }
    assert !Names(files, env, f.path);
  }
}
