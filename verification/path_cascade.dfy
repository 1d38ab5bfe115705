/** The public-safety auditor's path loop: skipped files, an ordered cascade of path rules that each
    settle a file with one issue, and a text scan for what is left. */
module PathCascade {
  import opened Strings
  import opened Paths
  import opened CascadeTables
  import opened Sequences

  datatype Content = Text(text: string) | Undecodable

  datatype File = File(path: Parts, isFile: bool, content: Content)

  datatype IssueType = TrackedPath(rule: Rule) | InText(description: string)

  datatype SafetyIssue = SafetyIssue(path: Parts, issueType: IssueType)

  /** What the loop is run with. Its laws hold for any rule tables; the tables of the source are
      CascadeTables.TABLES. The expression that finds hosting or tracking keys in `mkdocs.yml` and
      the text auditor are left arbitrary. */
  datatype Environment = Environment(
    tables: Tables,
    hostingConfig: string -> bool,
    auditText: (Parts, string) -> seq<SafetyIssue>)

  const FAKE_WORKSPACE := "examples/private-workspace"

  predicate Exempt(path: Parts) {
    Contains(Posix(path), FAKE_WORKSPACE)
  }

  /** `any(part in {...} for part in path.parts)` */
  predicate HasListedPart(rule: Rule, path: Parts, tables: Tables) {
    exists part :: part in path && tables.isPart(rule)(part)
  }

  /** `path.name.endswith((...))` */
  predicate HasListedEnding(rule: Rule, path: Parts, tables: Tables) {
    exists k :: 0 <= k <= |Name(path)| && tables.isEnding(rule)(Name(path)[k..])
  }

  predicate LooksLike(rule: Rule, path: Parts, tables: Tables) {
    || tables.isName(rule)(Name(path))
    || tables.isSuffix(rule)(LowerSuffix(path))
    || HasListedPart(rule, path, tables)
    || HasListedEnding(rule, path, tables)
  }

  predicate Applies(rule: Rule, f: File, env: Environment) {
    match rule
    case GithubWorkflow => |f.path| >= 2 && f.path[..2] == [".github", "workflows"]
    case DocsConfigTracking =>
      Name(f.path) == "mkdocs.yml" && env.hostingConfig(if f.content.Text? then f.content.text else "")
    case PrivateWorkspaceOutput | PrivateOutputPath => LooksLike(rule, f.path, env.tables) && !Exempt(f.path)
    case _ => LooksLike(rule, f.path, env.tables)
  }

  predicate Skipped(f: File) {
    Name(f.path) in SKIP_NAMES || !f.isFile
  }

  function RuleTest(f: File, env: Environment): Rule -> bool {
    rule => Applies(rule, f, env)
  }

  datatype Outcome = Ignored | Settled(rule: Rule) | NotScanned | Scanned(text: string)

  /** What the loop body does with one file. */
  function Classify(f: File, env: Environment): Outcome {
    if Skipped(f) then Ignored
    else
      var rules := FirstWhere(CASCADE, RuleTest(f, env));
      if rules != [] then Settled(rules[0])
      else if !env.tables.isTextSuffix(LowerSuffix(f.path)) || f.content.Undecodable? then NotScanned
      else Scanned(f.content.text)
  }

  function FileIssues(f: File, env: Environment): seq<SafetyIssue> {
    match Classify(f, env)
    case Ignored | NotScanned => []
    case Settled(rule) => [SafetyIssue(f.path, TrackedPath(rule))]
    case Scanned(text) => env.auditText(f.path, text)
  }

  function Audit(env: Environment): File -> seq<SafetyIssue> {
    f => FileIssues(f, env)
  }

  function AllIssues(files: seq<File>, env: Environment): seq<SafetyIssue> {
    FlatMap(files, Audit(env))
  }

  /** The ordered cascade: the first rule that applies ends the search. */
  method FindRule(f: File, env: Environment) returns (rule: seq<Rule>)
    ensures rule == FirstWhere(CASCADE, RuleTest(f, env))
  {
    var k := 0;
    while k < |CASCADE|
      invariant 0 <= k <= |CASCADE|
      invariant FirstWhere(CASCADE[k..], RuleTest(f, env)) == FirstWhere(CASCADE, RuleTest(f, env))
    {
      if Applies(CASCADE[k], f, env) {
        return [CASCADE[k]];
      }
      k := k + 1;
    }
    return [];
  }

  method AuditFile(f: File, env: Environment) returns (issues: seq<SafetyIssue>)
    ensures issues == FileIssues(f, env)
  {
    if Skipped(f) {
      return [];
    }
    var rule := FindRule(f, env);
    if rule != [] {
      return [SafetyIssue(f.path, TrackedPath(rule[0]))];
    }
    if !env.tables.isTextSuffix(LowerSuffix(f.path)) || f.content.Undecodable? {
      return [];
    }
    return env.auditText(f.path, f.content.text);
  }

  /** The loop over the paths. */
  method AuditPaths(files: seq<File>, env: Environment) returns (issues: seq<SafetyIssue>)
    ensures issues == AllIssues(files, env)
  {
    issues := [];
    var i := 0;
    while i < |files|
      invariant 0 <= i <= |files|
      invariant issues + FlatMap(files[i..], Audit(env)) == FlatMap(files, Audit(env))
    {
      FlatMapStep(issues, files, i, Audit(env));
      var found := AuditFile(files[i], env);
      issues := issues + found;
      i := i + 1;
    }
  }

  // ----- Which rule settles a file

  /** A file that is not skipped is settled exactly when some rule applies to it, whatever that
      rule's place; the rule that settles it is the earliest one. */
  lemma SettledIffSomeRuleApplies(f: File, env: Environment)
    ensures Classify(f, env).Settled? <==> !Skipped(f) && exists rule :: Applies(rule, f, env)
    ensures Classify(f, env).Settled? ==>
      exists k :: FirstAt(CASCADE, RuleTest(f, env), k) && Classify(f, env).rule == CASCADE[k]
  {
    FirstWhereIsFirst(CASCADE, RuleTest(f, env));
    if rule :| Applies(rule, f, env) {
      Listed(rule);
      assert RuleTest(f, env)(rule);
    }
  }

  lemma RulesIgnoreTextAuditor(f: File, env: Environment, other: (Parts, string) -> seq<SafetyIssue>)
    ensures FirstWhere(CASCADE, RuleTest(f, env.(auditText := other))) == FirstWhere(CASCADE, RuleTest(f, env))
  {
    FirstWhereAgrees(CASCADE, RuleTest(f, env), RuleTest(f, env.(auditText := other)));
  }

  /** The three ways through the loop body exclude each other: a settled file gives exactly one
      path issue and is not text-scanned (no text auditor can change the result), a scanned file
      gives exactly what the text auditor says, and any other file gives nothing. */
  lemma OneOutcomePerFile(f: File, env: Environment, other: (Parts, string) -> seq<SafetyIssue>)
    ensures var issues := FileIssues(f, env);
      if Skipped(f) then issues == []
      else if exists rule :: Applies(rule, f, env) then
        && |issues| == 1 && issues[0].path == f.path && issues[0].issueType.TrackedPath?
        && FileIssues(f, env.(auditText := other)) == issues
      else if env.tables.isTextSuffix(LowerSuffix(f.path)) && f.content.Text? then
        issues == env.auditText(f.path, f.content.text)
      else issues == []
  {
    SettledIffSomeRuleApplies(f, env);
    RulesIgnoreTextAuditor(f, env, other);
  }

  /** Only `mkdocs.yml` is judged by its content before the text scan, and only through the one rule
      that may fall through: two contents that this rule judges alike are settled alike. */
  lemma ContentMattersOnlyForDocsConfig(f: File, content: Content, env: Environment)
    requires Applies(DocsConfigTracking, f, env) <==> Applies(DocsConfigTracking, f.(content := content), env)
    ensures Classify(f, env).Settled? || Classify(f.(content := content), env).Settled? ==>
      Classify(f, env) == Classify(f.(content := content), env)
    ensures Name(f.path) != "mkdocs.yml" ==> !Applies(DocsConfigTracking, f, env)
  {
    FirstWhereAgrees(CASCADE, RuleTest(f, env), RuleTest(f.(content := content), env));
  }

  // ----- The loop over many paths

  /** Auditing paths in two batches gives the two lists of issues one after the other, and
      reordering the paths reorders the issues and nothing else. */
  lemma IssuesFollowThePaths(xs: seq<File>, ys: seq<File>, env: Environment)
    ensures AllIssues(xs + ys, env) == AllIssues(xs, env) + AllIssues(ys, env)
    ensures multiset(xs) == multiset(ys) ==> multiset(AllIssues(xs, env)) == multiset(AllIssues(ys, env))
  {
    FlatMapConcat(xs, ys, Audit(env));
    if multiset(xs) == multiset(ys) {
      FlatMapPermuted(xs, ys, Audit(env));
    }
  }

  lemma Listed(rule: Rule)
    ensures rule in CASCADE
  {
    var k := Position(rule);
    assert CASCADE[k] == rule;
  }

  function Position(rule: Rule): (k: nat)
    ensures k < |CASCADE| && CASCADE[k] == rule
  {
    match rule
    case FrontendBuildFile => 0
    case GithubWorkflow => 1
    case LocalDatabase => 2
    case DatabaseDump => 3
    case CertificateOrInfraState => 4
    case SmokeOutput => 5
    case VersionedReleaseOutput => 6
    case ReleaseCandidateOutput => 7
    case VersionPrepOutput => 8
    case DocsSitePolishOutput => 9
    case HostedUiOutput => 10
    case ApiDocsOutput => 11
    case DemoWalkthroughOutput => 12
    case ThreatModelOutput => 13
    case AuthBoundaryOutput => 14
    case WebhookSecurityOutput => 15
    case DataPolicyOutput => 16
    case InfraSecurityOutput => 17
    case SupplyChainOutput => 18
    case IncidentResponseOutput => 19
    case SecurityGapOutput => 20
    case DemoDataOutput => 21
    case SetupExperienceOutput => 22
    case FinalSecurityOutput => 23
    case HostedDeploymentOutput => 24
    case OperatorExportOutput => 25
    case FinalReadinessOutput => 26
    case PilotDryRunOutput => 27
    case WebhookPlanningOutput => 28
    case DeploymentAutomation => 29
    case PostgresLog => 30
    case PostgresOutput => 31
    case SmokeTranscript => 32
    case EvidenceLinkageOutput => 33
    case ReadValidationOutput => 34
    case DocsSiteReport => 35
    case DocsConfigTracking => 36
    case ReleaseReadinessOutput => 37
    case PackageArchive => 38
    case UsageModeOutput => 39
    case SecretFile => 40
    case PrivateWorkspaceOutput => 41
    case CustomerDeploymentOutput => 42
    case PilotApprovalOutput => 43
    case EvidenceReviewOutput => 44
    case PrivateEvidenceOutput => 45
    case BinaryFile => 46
    case PilotReadinessOutput => 47
    case DiagnosticsOutput => 48
    case PrivateOutputPath => 49
  }
}
