/** The tracked-output loop of the public-usability auditor: the part of it that must agree with the
    public-safety auditor's path cascade. */
module UsabilityAudit {
  import opened Strings
  import opened Paths
  import opened Sequences

  datatype Finding =
    | GeneratedOutput(path: Parts)
    | UnsafeArtifact(path: Parts)
    | UnsafeText(path: Parts)
    | UnreadableText(path: Parts)

  /** What reading a public file shows; the unsafe-text expression is left arbitrary. */
  datatype Reading = Harmless | Unsafe | Unreadable

  /** The files behind the tracked paths. */
  datatype Repository = Repository(isFile: Parts -> bool, read: Parts -> Reading)

  datatype OutputTables = OutputTables(
    isPart: string -> bool,
    isEnding: string -> bool,
    isUnsafeSuffix: string -> bool)

  const OUTPUT_TABLES := OutputTables(IsGeneratedPart, IsGeneratedEnding, IsUnsafeSuffix)

  /** GENERATED_PARTS */
  predicate IsGeneratedPart(part: string) {
    part in {
      "private-workspace", "quickstart-output", "first-run-output", "usability-output",
      "sandbox-output", "pilot-output", "smoke-output", "support-output", "site",
      "docs-site-output", "mkdocs-site-output", "sandbox-read-output", "sandbox-validation-output",
      "read-validation-output", "sandbox-evidence-output", "sandbox-evidence-linkage-output",
      "evidence-linkage-output", "postgres-ops-output", "postgres-runtime-output", "db-ops-output",
      "migration-execution-output", "backup-verification-output", "restore-drill-output",
      "hosted-deployment-output", "hosted-deploy-output", "platform-deployment-output",
      "container-deployment-output", "https-webhook-output", "hosted-pilot-dry-run-output",
      "pilot-dry-run-output", "operations-dry-run-output", "launch-rehearsal-output",
      "final-readiness-output", "public-readiness-output", "repo-readiness-output",
      "maintainer-handoff-output", "webhook-ingress-output", "tls-planning-output",
      "dns-planning-output", "security-threat-model-output", "threat-model-output",
      "security-review-output", "security-assessment-output", "auth-boundary-audit-output",
      "permission-boundary-output", "auth-review-output", "permission-review-output",
      "webhook-security-review-output", "webhook-hardening-output", "webhook-replay-review-output",
      "webhook-signature-review-output", "data-policy-review-output",
      "data-retention-redaction-output", "retention-redaction-output", "redaction-review-output",
      "data-classification-output", "infra-security-review-output",
      "secrets-storage-db-review-output", "secret-storage-review-output",
      "database-security-review-output", "storage-security-review-output",
      "supply-chain-review-output", "dependency-security-output", "dependency-review-output",
      "package-security-output", "sbom-review-output", "incident-response-review-output",
      "incident-review-output", "forensics-review-output", "audit-log-review-output",
      "security-incident-output", "final-security-review-output", "security-readiness-output",
      "final-security-output", "private-security-review-output", "security-gate-output",
      "security-gap-closeout-output", "security-closeout-output", "privacy-review-output",
      "encryption-guidance-output", "private-security-action-output", "setup-experience-output",
      "installer-review-output", "local-setup-output", "setup-diagnostics-output",
      "demo-data-output", "demo-seed-output", "demo-reset-output", "demo-db-output",
      "api-docs-output", "api-reference-output", "route-reference-output", "openapi-review-output",
      "hosted-ui-review-output", "hosted-ui-output", "ui-readiness-output",
      "hosted-page-review-output", "docs-site-polish-output", "docs-site-review-output",
      "docs-navigation-output", "docs-reader-path-output", "docs-link-check-output",
      "version-prep-output", "package-metadata-output", "release-prep-output",
      "version-review-output", "package-review-output", "release-candidate-output",
      "release-candidate-review-output", "rc-checklist-output", "rc-readiness-output",
      "candidate-release-output", "versioned-release-handoff-output", "versioned-release-output",
      "release-handoff-output", "release-notes-draft-output", "post-release-checklist-output",
      "post-release-roadmap-output", "post-release-output", "known-limitations-output",
      "future-work-output", "roadmap-review-output", "private-review-output",
      "pre-tag-reminder-output"
    }
  }

  /** The endings listed beside GENERATED_PARTS. */
  predicate IsGeneratedEnding(ending: string) {
    ending in {
      ".usability-report.json", ".usability-report.md", ".first-run-report.json",
      ".first-run-report.md", ".docs-site-report.json", ".docs-site-report.md",
      ".sandbox-read-report.json", ".sandbox-read-report.md", ".sandbox-read-evidence.json",
      ".sandbox-read-evidence.md", ".read-validation-report.json", ".read-validation-report.md",
      ".sandbox-evidence-link.json", ".sandbox-evidence-link.md", ".sandbox-evidence-summary.json",
      ".sandbox-evidence-summary.md", ".sandbox-evidence-manifest.json",
      ".sandbox-evidence-manifest.md", ".auth-boundary-audit-report.json",
      ".auth-boundary-audit-report.md", ".auth-boundary-map.md",
      ".permission-boundary-checklist.md", ".route-permission-matrix.csv",
      ".webhook-security-review-report.json", ".webhook-security-review-report.md",
      ".webhook-signature-boundary.md", ".webhook-replay-checklist.md",
      ".webhook-fixture-matrix.csv", ".data-policy-review-report.json",
      ".data-policy-review-report.md", ".data-retention-map.md", ".redaction-boundary-map.md",
      ".generated-output-inventory.csv", ".data-handling-checklist.md",
      ".infra-security-review-report.json", ".infra-security-review-report.md",
      ".secret-boundary-map.md", ".storage-boundary-map.md", ".database-boundary-map.md",
      ".infra-security-checklist.md", ".infra-provider-matrix.csv",
      ".supply-chain-review-report.json", ".supply-chain-review-report.md",
      ".dependency-boundary-map.md", ".optional-extras-matrix.csv", ".package-surface-map.md",
      ".supply-chain-checklist.md", ".incident-response-review-report.json",
      ".incident-response-review-report.md", ".incident-runbook.md", ".audit-log-boundary-map.md",
      ".forensics-evidence-checklist.md", ".incident-scenario-matrix.csv",
      ".final-security-review-report.json", ".final-security-review-report.md",
      ".security-readiness-summary.md", ".security-gap-register.md",
      ".private-security-review-checklist.md", ".security-domain-matrix.csv",
      ".security-gap-closeout-report.json", ".security-gap-closeout-report.md",
      ".privacy-review-template.md", ".encryption-at-rest-guidance.md",
      ".policy-implementation-matrix.csv", ".private-security-action-register.md",
      ".known-limitations-closeout.md", ".setup-experience-report.json",
      ".setup-experience-report.md", ".first-run-checklist.md", ".local-installer-guide.md",
      ".setup-troubleshooting-guide.md", ".setup-command-map.csv", ".demo-data-report.json",
      ".demo-data-report.md", ".demo-seed-plan.md", ".demo-reset-plan.md",
      ".demo-data-inventory.csv", ".api-docs-report.json", ".api-docs-report.md",
      ".api-route-reference.md", ".api-route-matrix.csv", ".api-usage-examples.md",
      ".openapi-local-guide.md", ".hosted-ui-review-report.json", ".hosted-ui-review-report.md",
      ".hosted-ui-page-inventory.md", ".hosted-ui-route-matrix.csv",
      ".hosted-ui-readiness-checklist.md", ".hosted-ui-private-gates.md",
      ".docs-site-polish-report.json", ".docs-site-polish-report.md", ".docs-reader-paths.md",
      ".docs-navigation-map.md", ".docs-site-checklist.md", ".docs-link-inventory.csv",
      ".version-prep-report.json", ".version-prep-report.md", ".package-metadata-summary.md",
      ".version-source-map.md", ".release-boundary-checklist.md", ".version-readiness-matrix.csv",
      ".release-candidate-report.json", ".release-candidate-report.md",
      ".release-candidate-checklist.md", ".release-candidate-gap-register.md",
      ".release-candidate-command-plan.md", ".release-candidate-matrix.csv",
      ".versioned-release-handoff-report.json", ".versioned-release-handoff-report.md",
      ".maintainer-handoff-report.json", ".maintainer-handoff-report.md",
      ".maintainer-quickstart.md", ".maintainer-review-checklist.md",
      ".maintainer-command-plan.md", ".maintainer-decision-log-template.md",
      ".maintainer-handoff-matrix.csv", ".release-evidence-matrix.csv",
      ".post-release-roadmap-report.json", ".post-release-roadmap-report.md",
      ".known-limitations-register.md", ".future-work-backlog.md", ".private-review-backlog.md",
      ".pre-tag-reminder-checklist.md", ".post-release-roadmap-matrix.csv"
    }
  }

  /** UNSAFE_SUFFIXES */
  predicate IsUnsafeSuffix(suffix: string) {
    suffix in {
      ".bak", ".backup", ".crt", ".csr", ".db", ".docx", ".dump", ".gif", ".jpeg", ".jpg", ".key",
      ".log", ".p12", ".pdf", ".pem", ".pfx", ".png", ".sql", ".sqlite", ".sqlite3", ".webp",
      ".xlsx", ".zip"
    }
  }

  predicate IsFakeExample(path: Parts) {
    |path| >= 2 && path[..2] == ["examples", "private-workspace"]
  }

  predicate HasGeneratedPart(path: Parts, tables: OutputTables) {
    exists part :: part in path && tables.isPart(part)
  }

  predicate HasGeneratedEnding(path: Parts, tables: OutputTables) {
    exists k :: 0 <= k <= |Name(path)| && tables.isEnding(Name(path)[k..])
  }

  predicate IsGeneratedOutput(path: Parts, tables: OutputTables) {
    || (HasGeneratedPart(LowerParts(path), tables) && !IsFakeExample(path))
    || HasGeneratedEnding(path, tables)
  }

  predicate IsUnsafeArtifact(path: Parts, tables: OutputTables) {
    tables.isUnsafeSuffix(LowerSuffix(path))
  }

  predicate IsReadableSuffix(suffix: string) {
    suffix in {"", ".cfg", ".env", ".example", ".ini", ".json", ".md", ".toml", ".txt", ".yaml", ".yml"}
  }

  /** The files whose text the loop inspects. */
  predicate IsPublicText(path: Parts, repository: Repository) {
    && ((path != [] && path[0] in {"docs", "examples"})
        || Name(path) in {".env.example", "README.md", "QUICKSTART.md"})
    && repository.isFile(path)
    && IsReadableSuffix(LowerSuffix(path))
  }

  /** When the loop makes a finding about a path. */
  predicate IsDue(finding: Finding, tables: OutputTables, repository: Repository) {
    match finding
    case GeneratedOutput(path) => IsGeneratedOutput(path, tables)
    case UnsafeArtifact(path) => IsUnsafeArtifact(path, tables)
    case UnsafeText(path) => IsPublicText(path, repository) && repository.read(path) == Unsafe
    case UnreadableText(path) => IsPublicText(path, repository) && repository.read(path) == Unreadable
  }

  /** The order of the loop body. */
  function Rank(finding: Finding): nat {
    match finding
    case GeneratedOutput(_) => 0
    case UnsafeArtifact(_) => 1
    case UnsafeText(_) | UnreadableText(_) => 2
  }

  function If(finding: Finding, tables: OutputTables, repository: Repository): seq<Finding> {
    if IsDue(finding, tables, repository) then [finding] else []
  }

  function FindingsFor(path: Parts, tables: OutputTables, repository: Repository): seq<Finding> {
    If(GeneratedOutput(path), tables, repository) + If(UnsafeArtifact(path), tables, repository)
    + If(UnsafeText(path), tables, repository) + If(UnreadableText(path), tables, repository)
  }

  lemma FindingsForAreDue(path: Parts, tables: OutputTables, repository: Repository, finding: Finding)
    ensures finding in FindingsFor(path, tables, repository)
       <==> finding.path == path && IsDue(finding, tables, repository)
  {
    hide IsDue;
  }

  /** At most one finding of each rank: a path gives at most three, in the order of the checks. */
  lemma FindingsForAreOrdered(path: Parts, tables: OutputTables, repository: Repository)
    ensures var findings := FindingsFor(path, tables, repository);
            && |findings| <= 3
            && (forall i, j :: 0 <= i < j < |findings| ==> Rank(findings[i]) < Rank(findings[j]))
  {
    hide IsGeneratedOutput, IsUnsafeArtifact, IsPublicText;
  }

  lemma FindingsForAreExact(path: Parts, tables: OutputTables, repository: Repository)
    ensures var findings := FindingsFor(path, tables, repository);
            && (forall finding :: finding in findings <==> finding.path == path && IsDue(finding, tables, repository))
            && |findings| <= 3
            && (forall i, j :: 0 <= i < j < |findings| ==> Rank(findings[i]) < Rank(findings[j]))
  {
    FindingsForAreOrdered(path, tables, repository);
    forall finding
      ensures finding in FindingsFor(path, tables, repository)
         <==> finding.path == path && IsDue(finding, tables, repository)
    {
      FindingsForAreDue(path, tables, repository, finding);
    }
  }

  function PathFindings(tables: OutputTables, repository: Repository): Parts -> seq<Finding> {
    path => FindingsFor(path, tables, repository)
  }

  function Findings(tracked: seq<Parts>, tables: OutputTables, repository: Repository): seq<Finding> {
    FlatMap(tracked, PathFindings(tables, repository))
  }

  /** The loop body: about one path, exactly the findings that are due, in the order of the checks. */
  method AuditOne(path: Parts, tables: OutputTables, repository: Repository) returns (findings: seq<Finding>)
    ensures findings == FindingsFor(path, tables, repository)
    ensures forall finding :: finding in findings <==> finding.path == path && IsDue(finding, tables, repository)
    ensures |findings| <= 3 && forall i, j :: 0 <= i < j < |findings| ==> Rank(findings[i]) < Rank(findings[j])
  {
    hide IsGeneratedOutput, IsUnsafeArtifact, IsPublicText;
    findings := [];
    if IsGeneratedOutput(path, tables) {
      findings := findings + [GeneratedOutput(path)];
    }
    assert findings == If(GeneratedOutput(path), tables, repository);
    if IsUnsafeArtifact(path, tables) {
      findings := findings + [UnsafeArtifact(path)];
    }
    ghost var paths := If(GeneratedOutput(path), tables, repository) + If(UnsafeArtifact(path), tables, repository);
    assert findings == paths;
    if IsPublicText(path, repository) {
      match repository.read(path)
      case Unsafe => findings := findings + [UnsafeText(path)];
      case Unreadable => findings := findings + [UnreadableText(path)];
      case Harmless =>
    }
    assert findings == FindingsFor(path, tables, repository);
    FindingsForAreExact(path, tables, repository);
    hide IsDue, FindingsFor, If, Rank;
  }

  /** The loop: exactly the findings that are due about tracked paths, path after path. */
  method AuditTracked(tracked: seq<Parts>, tables: OutputTables, repository: Repository)
    returns (findings: seq<Finding>)
    ensures findings == Findings(tracked, tables, repository)
    ensures forall finding :: finding in findings <==> finding.path in tracked && IsDue(finding, tables, repository)
  {
    findings := [];
    var i := 0;
    while i < |tracked|
      invariant 0 <= i <= |tracked|
      invariant findings + FlatMap(tracked[i..], PathFindings(tables, repository))
             == FlatMap(tracked, PathFindings(tables, repository))
    {
      FlatMapStep(findings, tracked, i, PathFindings(tables, repository));
      var found := AuditOne(tracked[i], tables, repository);
      findings := findings + found;
      i := i + 1;
    }
    FindingsAreDue(tracked, tables, repository);
  }

  lemma FindingsAreDue(tracked: seq<Parts>, tables: OutputTables, repository: Repository)
    ensures forall finding ::
      finding in Findings(tracked, tables, repository)
      <==> finding.path in tracked && IsDue(finding, tables, repository)
  {
    FlatMapContains(tracked, PathFindings(tables, repository));
    forall finding: Finding
      ensures finding in Findings(tracked, tables, repository)
         <==> finding.path in tracked && IsDue(finding, tables, repository)
    {
      forall path
        ensures finding in PathFindings(tables, repository)(path)
           <==> finding.path == path && IsDue(finding, tables, repository)
      {
        FindingsForAreDue(path, tables, repository, finding);
      }
    }
  }

  // ----- The findings, said of the path

  /** A path is refused as generated output for a listed ending of its name as it is written, or for a
      part that is listed in small letters, unless it leads into the fake workspace. */
  lemma GeneratedOutputMeans(path: Parts, tables: OutputTables)
    ensures IsGeneratedOutput(path, tables) <==>
      || (exists k :: 0 <= k <= |Name(path)| && tables.isEnding(Name(path)[k..]))
      || (!(|path| > 1 && path[0] == "examples" && path[1] == "private-workspace")
          && exists i :: 0 <= i < |path| && tables.isPart(Lower(path[i])))
  {
    hide Name;
    GeneratedPartMeans(path, tables);
    assert |path| >= 2 ==> path[..2] == [path[0], path[1]];
  }

  lemma GeneratedPartMeans(path: Parts, tables: OutputTables)
    ensures HasGeneratedPart(LowerParts(path), tables) <==>
            exists i :: 0 <= i < |path| && tables.isPart(Lower(path[i]))
  {
    if i :| 0 <= i < |path| && tables.isPart(Lower(path[i])) {
      assert LowerParts(path)[i] == Lower(path[i]);
    }
  }

  /** In the fake workspace only the ending counts. */
  lemma FakeExampleIsSpared(below: Parts, tables: OutputTables)
    requires forall k :: 0 <= k <= |Name(["examples", "private-workspace"] + below)| ==>
               !tables.isEnding(Name(["examples", "private-workspace"] + below)[k..])
    ensures !IsGeneratedOutput(["examples", "private-workspace"] + below, tables)
  {
    var path := ["examples", "private-workspace"] + below;
    GeneratedOutputMeans(path, tables);
    assert path[0] == "examples" && path[1] == "private-workspace";
  }

  /** Each of the loop's four findings, in terms of the path and the file. */
  lemma FindingsMean(tracked: seq<Parts>, tables: OutputTables, repository: Repository, path: Parts)
    ensures var findings := Findings(tracked, tables, repository);
            var inspected :=
              && repository.isFile(path)
              && ((path != [] && (path[0] == "docs" || path[0] == "examples"))
                  || Name(path) in {".env.example", "README.md", "QUICKSTART.md"})
              && LowerSuffix(path) in {
                   "", ".cfg", ".env", ".example", ".ini", ".json", ".md", ".toml", ".txt", ".yaml", ".yml"};
            && (GeneratedOutput(path) in findings <==>
                 path in tracked &&
                 (|| (exists k :: 0 <= k <= |Name(path)| && tables.isEnding(Name(path)[k..]))
                  || (!(|path| > 1 && path[0] == "examples" && path[1] == "private-workspace")
                      && exists i :: 0 <= i < |path| && tables.isPart(Lower(path[i])))))
            && (UnsafeArtifact(path) in findings <==> path in tracked && tables.isUnsafeSuffix(LowerSuffix(path)))
            && (UnsafeText(path) in findings <==> path in tracked && inspected && repository.read(path) == Unsafe)
            && (UnreadableText(path) in findings <==>
                 path in tracked && inspected && repository.read(path) == Unreadable)
  {
    hide IsGeneratedOutput, Findings, Name, LowerSuffix;
    FindingsAreDue(tracked, tables, repository);
    GeneratedOutputMeans(path, tables);
  }
}
