/** The tables of the public-safety auditor's path cascade: which names, suffixes, path parts and
    name endings each of its fifty rules looks for. */
module CascadeTables {

  /** One rule per `continue` of the cascade, in the order of the source. */
  datatype Rule =
    | FrontendBuildFile | GithubWorkflow | LocalDatabase | DatabaseDump
    | CertificateOrInfraState | SmokeOutput | VersionedReleaseOutput
    | ReleaseCandidateOutput | VersionPrepOutput | DocsSitePolishOutput | HostedUiOutput
    | ApiDocsOutput | DemoWalkthroughOutput | ThreatModelOutput | AuthBoundaryOutput
    | WebhookSecurityOutput | DataPolicyOutput | InfraSecurityOutput | SupplyChainOutput
    | IncidentResponseOutput | SecurityGapOutput | DemoDataOutput | SetupExperienceOutput
    | FinalSecurityOutput | HostedDeploymentOutput | OperatorExportOutput
    | FinalReadinessOutput | PilotDryRunOutput | WebhookPlanningOutput
    | DeploymentAutomation | PostgresLog | PostgresOutput | SmokeTranscript
    | EvidenceLinkageOutput | ReadValidationOutput | DocsSiteReport | DocsConfigTracking
    | ReleaseReadinessOutput | PackageArchive | UsageModeOutput | SecretFile
    | PrivateWorkspaceOutput | CustomerDeploymentOutput | PilotApprovalOutput
    | EvidenceReviewOutput | PrivateEvidenceOutput | BinaryFile | PilotReadinessOutput
    | DiagnosticsOutput | PrivateOutputPath

  const CASCADE: seq<Rule> := [
    FrontendBuildFile, GithubWorkflow, LocalDatabase, DatabaseDump, CertificateOrInfraState,
    SmokeOutput, VersionedReleaseOutput, ReleaseCandidateOutput, VersionPrepOutput,
    DocsSitePolishOutput, HostedUiOutput, ApiDocsOutput, DemoWalkthroughOutput,
    ThreatModelOutput, AuthBoundaryOutput, WebhookSecurityOutput, DataPolicyOutput,
    InfraSecurityOutput, SupplyChainOutput, IncidentResponseOutput, SecurityGapOutput,
    DemoDataOutput, SetupExperienceOutput, FinalSecurityOutput, HostedDeploymentOutput
  ] + [
    OperatorExportOutput, FinalReadinessOutput, PilotDryRunOutput, WebhookPlanningOutput,
    DeploymentAutomation, PostgresLog, PostgresOutput, SmokeTranscript, EvidenceLinkageOutput,
    ReadValidationOutput, DocsSiteReport, DocsConfigTracking, ReleaseReadinessOutput,
    PackageArchive, UsageModeOutput, SecretFile, PrivateWorkspaceOutput,
    CustomerDeploymentOutput, PilotApprovalOutput, EvidenceReviewOutput, PrivateEvidenceOutput,
    BinaryFile, PilotReadinessOutput, DiagnosticsOutput, PrivateOutputPath
  ]

  /** The tables the cascade is run with: for each rule, which strings it looks for. */
  datatype Tables = Tables(
    isName: Rule -> string -> bool,
    isSuffix: Rule -> string -> bool,
    isPart: Rule -> string -> bool,
    isEnding: Rule -> string -> bool,
    isTextSuffix: string -> bool)

  const TABLES := Tables(IsName, IsSuffix, IsPart, IsEnding, IsTextSuffix)

  predicate Nothing(s: string) {
    false
  }

  /** Whole file names that a rule looks for. */
  function IsName(rule: Rule): string -> bool {
    match rule
    case FrontendBuildFile => FrontendBuildFileName
    case DeploymentAutomation => DeploymentAutomationName
    case _ => Nothing
  }

  /** File suffixes that a rule looks for, in lower case. */
  function IsSuffix(rule: Rule): string -> bool {
    match rule
    case LocalDatabase => LocalDatabaseSuffix
    case DatabaseDump => DatabaseDumpSuffix
    case CertificateOrInfraState => CertificateOrInfraStateSuffix
    case DeploymentAutomation => DeploymentAutomationSuffix
    case PackageArchive => PackageArchiveSuffix
    case BinaryFile => BinaryFileSuffix
    case _ => Nothing
  }

  /** Path parts that a rule looks for. */
  function IsPart(rule: Rule): string -> bool {
    match rule
    case VersionedReleaseOutput => VersionedReleasePart
    case ReleaseCandidateOutput => ReleaseCandidatePart
    case VersionPrepOutput => VersionPrepPart
    case DocsSitePolishOutput => DocsSitePolishPart
    case HostedUiOutput => HostedUiPart
    case ApiDocsOutput => ApiDocsPart
    case DemoWalkthroughOutput => DemoWalkthroughPart
    case ThreatModelOutput => ThreatModelPart
    case AuthBoundaryOutput => AuthBoundaryPart
    case WebhookSecurityOutput => WebhookSecurityPart
    case DataPolicyOutput => DataPolicyPart
    case InfraSecurityOutput => InfraSecurityPart
    case SupplyChainOutput => SupplyChainPart
    case IncidentResponseOutput => IncidentResponsePart
    case SecurityGapOutput => SecurityGapPart
    case DemoDataOutput => DemoDataPart
    case SetupExperienceOutput => SetupExperiencePart
    case FinalSecurityOutput => FinalSecurityPart
    case PrivateOutputPath => PrivateOutputPart
    case _ => Nothing
  }

  /** Endings of a file name that a rule looks for. */
  function IsEnding(rule: Rule): string -> bool {
    match rule
    case SmokeOutput => SmokeEnding
    case VersionedReleaseOutput => VersionedReleaseEnding
    case ReleaseCandidateOutput => ReleaseCandidateEnding
    case VersionPrepOutput => VersionPrepEnding
    case DocsSitePolishOutput => DocsSitePolishEnding
    case HostedUiOutput => HostedUiEnding
    case ApiDocsOutput => ApiDocsEnding
    case DemoWalkthroughOutput => DemoWalkthroughEnding
    case ThreatModelOutput => ThreatModelEnding
    case AuthBoundaryOutput => AuthBoundaryEnding
    case WebhookSecurityOutput => WebhookSecurityEnding
    case DataPolicyOutput => DataPolicyEnding
    case InfraSecurityOutput => InfraSecurityEnding
    case SupplyChainOutput => SupplyChainEnding
    case IncidentResponseOutput => IncidentResponseEnding
    case SecurityGapOutput => SecurityGapEnding
    case DemoDataOutput => DemoDataEnding
    case SetupExperienceOutput => SetupExperienceEnding
    case FinalSecurityOutput => FinalSecurityEnding
    case HostedDeploymentOutput => HostedDeploymentEnding
    case OperatorExportOutput => OperatorExportEnding
    case FinalReadinessOutput => FinalReadinessEnding
    case PilotDryRunOutput => PilotDryRunEnding
    case WebhookPlanningOutput => WebhookPlanningEnding
    case PostgresLog => PostgresLogEnding
    case PostgresOutput => PostgresEnding
    case SmokeTranscript => SmokeTranscriptEnding
    case EvidenceLinkageOutput => EvidenceLinkageEnding
    case ReadValidationOutput => ReadValidationEnding
    case DocsSiteReport => DocsSiteReportEnding
    case ReleaseReadinessOutput => ReleaseReadinessEnding
    case UsageModeOutput => UsageModeEnding
    case SecretFile => SecretFileEnding
    case PrivateWorkspaceOutput => PrivateWorkspaceEnding
    case CustomerDeploymentOutput => CustomerDeploymentEnding
    case PilotApprovalOutput => PilotApprovalEnding
    case EvidenceReviewOutput => EvidenceReviewEnding
    case PrivateEvidenceOutput => PrivateEvidenceEnding
    case PilotReadinessOutput => PilotReadinessEnding
    case DiagnosticsOutput => DiagnosticsEnding
    case _ => Nothing
  }

  predicate FrontendBuildFileName(name: string) {
    name in {
      "package.json", "package-lock.json", "yarn.lock", "pnpm-lock.yaml", "vite.config.js",
      "vite.config.ts", "webpack.config.js"
    }
  }

  predicate DeploymentAutomationName(name: string) {
    name in {"Pulumi.yaml", "Pulumi.yml", "Chart.yaml"}
  }

  predicate LocalDatabaseSuffix(suffix: string) {
    suffix in {".db", ".sqlite", ".sqlite3"}
  }

  predicate DatabaseDumpSuffix(suffix: string) {
    suffix in {".sql", ".dump", ".backup", ".bak", ".pgdump"}
  }

  predicate CertificateOrInfraStateSuffix(suffix: string) {
    suffix in {".pem", ".key", ".crt", ".csr", ".p12", ".pfx", ".tfstate", ".tfvars"}
  }

  predicate DeploymentAutomationSuffix(suffix: string) {
    suffix in {".tf"}
  }

  predicate PackageArchiveSuffix(suffix: string) {
    suffix in {".whl", ".gz", ".tgz"}
  }

  predicate BinaryFileSuffix(suffix: string) {
    suffix in {".pdf", ".docx", ".xlsx", ".xls", ".png", ".jpg", ".jpeg", ".gif", ".webp", ".zip"}
  }

  predicate VersionedReleasePart(part: string) {
    part in {
      "versioned-release-handoff-output", "versioned-release-output", "release-handoff-output",
      "release-notes-draft-output", "post-release-checklist-output", "post-release-roadmap-output",
      "post-release-output", "known-limitations-output", "future-work-output",
      "roadmap-review-output", "private-review-output", "pre-tag-reminder-output"
    }
  }

  predicate ReleaseCandidatePart(part: string) {
    part in {
      "release-candidate-output", "release-candidate-review-output", "rc-checklist-output",
      "rc-readiness-output", "candidate-release-output"
    }
  }

  predicate VersionPrepPart(part: string) {
    part in {
      "version-prep-output", "package-metadata-output", "release-prep-output",
      "version-review-output", "package-review-output"
    }
  }

  predicate DocsSitePolishPart(part: string) {
    part in {
      "docs-site-polish-output", "docs-site-review-output", "docs-navigation-output",
      "docs-reader-path-output", "docs-link-check-output"
    }
  }

  predicate HostedUiPart(part: string) {
    part in {
      "hosted-ui-review-output", "hosted-ui-output", "ui-readiness-output",
      "hosted-page-review-output"
    }
  }

  predicate ApiDocsPart(part: string) {
    part in {
      "api-docs-output", "api-reference-output", "route-reference-output", "openapi-review-output"
    }
  }

  predicate DemoWalkthroughPart(part: string) {
    part in {
      "demo-walkthrough-output", "demo-product-output", "demo-tour-output",
      "demo-evaluation-output"
    }
  }

  predicate ThreatModelPart(part: string) {
    part in {
      "security-threat-model-output", "threat-model-output", "security-review-output",
      "security-assessment-output"
    }
  }

  predicate AuthBoundaryPart(part: string) {
    part in {
      "auth-boundary-audit-output", "permission-boundary-output", "auth-review-output",
      "permission-review-output"
    }
  }

  predicate WebhookSecurityPart(part: string) {
    part in {
      "webhook-security-review-output", "webhook-hardening-output", "webhook-replay-review-output",
      "webhook-signature-review-output"
    }
  }

  predicate DataPolicyPart(part: string) {
    part in {
      "data-policy-review-output", "data-retention-redaction-output", "retention-redaction-output",
      "redaction-review-output", "data-classification-output"
    }
  }

  predicate InfraSecurityPart(part: string) {
    part in {
      "infra-security-review-output", "secrets-storage-db-review-output",
      "secret-storage-review-output", "database-security-review-output",
      "storage-security-review-output"
    }
  }

  predicate SupplyChainPart(part: string) {
    part in {
      "supply-chain-review-output", "dependency-security-output", "dependency-review-output",
      "package-security-output", "sbom-review-output"
    }
  }

  predicate IncidentResponsePart(part: string) {
    part in {
      "incident-response-review-output", "incident-review-output", "forensics-review-output",
      "audit-log-review-output", "security-incident-output"
    }
  }

  predicate SecurityGapPart(part: string) {
    part in {
      "security-gap-closeout-output", "security-closeout-output", "privacy-review-output",
      "encryption-guidance-output", "private-security-action-output"
    }
  }

  predicate DemoDataPart(part: string) {
    part in {"demo-data-output", "demo-seed-output", "demo-reset-output", "demo-db-output"}
  }

  predicate SetupExperiencePart(part: string) {
    part in {
      "setup-experience-output", "installer-review-output", "first-run-output",
      "local-setup-output", "setup-diagnostics-output"
    }
  }

  predicate FinalSecurityPart(part: string) {
    part in {
      "final-security-review-output", "security-readiness-output", "final-security-output",
      "private-security-review-output", "security-gate-output"
    }
  }

  predicate SmokeEnding(ending: string) {
    ending in {".smoke.json", ".smoke.log"}
  }

  predicate VersionedReleaseEnding(ending: string) {
    ending in {
      ".versioned-release-handoff-report.json", ".versioned-release-handoff-report.md",
      ".maintainer-handoff-report.json", ".maintainer-handoff-report.md",
      ".maintainer-handoff-matrix.csv", ".maintainer-quickstart.md",
      ".maintainer-review-checklist.md", ".maintainer-command-plan.md",
      ".maintainer-decision-log-template.md", ".release-notes-draft.md",
      ".release-scope-summary.md", ".maintainer-release-decision-checklist.md",
      ".post-release-checklist.md", ".release-evidence-matrix.csv",
      ".post-release-roadmap-report.json", ".post-release-roadmap-report.md",
      ".known-limitations-register.md", ".future-work-backlog.md", ".private-review-backlog.md",
      ".pre-tag-reminder-checklist.md", ".post-release-roadmap-matrix.csv"
    }
  }

  predicate ReleaseCandidateEnding(ending: string) {
    ending in {
      ".release-candidate-report.json", ".release-candidate-report.md",
      ".release-candidate-checklist.md", ".release-candidate-gap-register.md",
      ".release-candidate-command-plan.md", ".release-candidate-matrix.csv"
    }
  }

  predicate VersionPrepEnding(ending: string) {
    ending in {
      ".version-prep-report.json", ".version-prep-report.md", ".package-metadata-summary.md",
      ".version-source-map.md", ".release-boundary-checklist.md", ".version-readiness-matrix.csv"
    }
  }

  predicate DocsSitePolishEnding(ending: string) {
    ending in {
      ".docs-site-polish-report.json", ".docs-site-polish-report.md", ".docs-reader-paths.md",
      ".docs-navigation-map.md", ".docs-site-checklist.md", ".docs-link-inventory.csv"
    }
  }

  predicate HostedUiEnding(ending: string) {
    ending in {
      ".hosted-ui-review-report.json", ".hosted-ui-review-report.md",
      ".hosted-ui-page-inventory.md", ".hosted-ui-route-matrix.csv",
      ".hosted-ui-readiness-checklist.md", ".hosted-ui-private-gates.md"
    }
  }

  predicate ApiDocsEnding(ending: string) {
    ending in {
      ".api-docs-report.json", ".api-docs-report.md", ".api-route-reference.md",
      ".api-route-matrix.csv", ".api-usage-examples.md", ".openapi-local-guide.md"
    }
  }

  predicate DemoWalkthroughEnding(ending: string) {
    ending in {
      ".demo-walkthrough-report.json", ".demo-walkthrough-report.md", ".demo-product-tour.md",
      ".demo-evaluation-checklist.md"
    }
  }

  predicate ThreatModelEnding(ending: string) {
    ending in {
      ".security-threat-model-report.json", ".security-threat-model-report.md", ".threat-model.md",
      ".security-boundary-map.md", ".security-review-checklist.md"
    }
  }

  predicate AuthBoundaryEnding(ending: string) {
    ending in {
      ".auth-boundary-audit-report.json", ".auth-boundary-audit-report.md",
      ".auth-boundary-map.md", ".permission-boundary-checklist.md", ".route-permission-matrix.csv"
    }
  }

  predicate WebhookSecurityEnding(ending: string) {
    ending in {
      ".webhook-security-review-report.json", ".webhook-security-review-report.md",
      ".webhook-signature-boundary.md", ".webhook-replay-checklist.md",
      ".webhook-fixture-matrix.csv"
    }
  }

  predicate DataPolicyEnding(ending: string) {
    ending in {
      ".data-policy-review-report.json", ".data-policy-review-report.md", ".data-retention-map.md",
      ".redaction-boundary-map.md", ".generated-output-inventory.csv",
      ".data-handling-checklist.md"
    }
  }

  predicate InfraSecurityEnding(ending: string) {
    ending in {
      ".infra-security-review-report.json", ".infra-security-review-report.md",
      ".secret-boundary-map.md", ".storage-boundary-map.md", ".database-boundary-map.md",
      ".infra-security-checklist.md", ".infra-provider-matrix.csv"
    }
  }

  predicate SupplyChainEnding(ending: string) {
    ending in {
      ".supply-chain-review-report.json", ".supply-chain-review-report.md",
      ".dependency-boundary-map.md", ".optional-extras-matrix.csv", ".package-surface-map.md",
      ".supply-chain-checklist.md"
    }
  }

  predicate IncidentResponseEnding(ending: string) {
    ending in {
      ".incident-response-review-report.json", ".incident-response-review-report.md",
      ".incident-runbook.md", ".audit-log-boundary-map.md", ".forensics-evidence-checklist.md",
      ".incident-scenario-matrix.csv"
    }
  }

  predicate SecurityGapEnding(ending: string) {
    ending in {
      ".security-gap-closeout-report.json", ".security-gap-closeout-report.md",
      ".privacy-review-template.md", ".encryption-at-rest-guidance.md",
      ".policy-implementation-matrix.csv", ".private-security-action-register.md",
      ".known-limitations-closeout.md"
    }
  }

  predicate DemoDataEnding(ending: string) {
    ending in {
      ".demo-data-report.json", ".demo-data-report.md", ".demo-seed-plan.md",
      ".demo-reset-plan.md", ".demo-data-inventory.csv"
    }
  }

  predicate SetupExperienceEnding(ending: string) {
    ending in {
      ".setup-experience-report.json", ".setup-experience-report.md", ".first-run-checklist.md",
      ".local-installer-guide.md", ".setup-troubleshooting-guide.md", ".setup-command-map.csv"
    }
  }

  predicate FinalSecurityEnding(ending: string) {
    ending in {
      ".final-security-review-report.json", ".final-security-review-report.md",
      ".security-readiness-summary.md", ".security-gap-register.md",
      ".private-security-review-checklist.md", ".security-domain-matrix.csv"
    }
  }

  predicate HostedDeploymentEnding(ending: string) {
    ending in {
      ".hosted-deployment-report.json", ".hosted-deployment-report.md",
      ".hosted-deployment-plan.md", ".platform-deployment-plan.md",
      ".container-deployment-plan.md", ".hosting-checklist.md", ".hosting-runbook.md",
      ".deployment-log"
    }
  }

  predicate OperatorExportEnding(ending: string) {
    ending in {
      ".operator-export.json", ".operator-export.md", ".operator-export.csv",
      ".review-export.json", ".review-export.md", ".review-export.csv",
      ".intake-summary-export.json", ".intake-summary-export.md", ".intake-summary-export.csv",
      ".lifecycle-summary-export.json", ".lifecycle-summary-export.md",
      ".lifecycle-summary-export.csv", ".triage-summary-export.json", ".triage-summary-export.md",
      ".triage-summary-export.csv", ".attachment-summary-export.json",
      ".attachment-summary-export.md", ".attachment-summary-export.csv"
    }
  }

  predicate FinalReadinessEnding(ending: string) {
    ending in {
      ".final-readiness-report.json", ".final-readiness-report.md",
      ".public-readiness-report.json", ".public-readiness-report.md", ".maintainer-handoff.md",
      ".public-repo-checklist.md", ".final-audit-summary.md"
    }
  }

  predicate PilotDryRunEnding(ending: string) {
    ending in {
      ".hosted-pilot-dry-run-report.json", ".hosted-pilot-dry-run-report.md",
      ".pilot-dry-run-checklist.md", ".pilot-dry-run-runbook.md", ".pilot-dry-run-evidence-map.md",
      ".pilot-dry-run-blockers.md"
    }
  }

  predicate WebhookPlanningEnding(ending: string) {
    ending in {
      ".https-webhook-report.json", ".https-webhook-report.md", ".webhook-ingress-plan.md",
      ".tls-plan.md", ".dns-plan.md", ".webhook-disable-plan.md", ".webhook-rollback-plan.md",
      ".webhook-evidence-ref.md"
    }
  }

  predicate PostgresLogEnding(ending: string) {
    ending in {".migration-log", ".restore-log", ".backup-log"}
  }

  predicate PostgresEnding(ending: string) {
    ending in {
      ".postgres-runtime-report.json", ".postgres-runtime-report.md", ".postgres-ops-report.json",
      ".postgres-ops-report.md", ".migration-execution-report.json",
      ".backup-verification-report.json", ".restore-drill-report.json"
    }
  }

  predicate SmokeTranscriptEnding(ending: string) {
    ending in {".smoke.txt", ".smoke.md", ".smoke.transcript", ".sandbox-smoke.json"}
  }

  predicate EvidenceLinkageEnding(ending: string) {
    ending in {
      ".sandbox-evidence-link.json", ".sandbox-evidence-link.md", ".sandbox-evidence-summary.json",
      ".sandbox-evidence-summary.md", ".sandbox-evidence-manifest.json",
      ".sandbox-evidence-manifest.md"
    }
  }

  predicate ReadValidationEnding(ending: string) {
    ending in {
      ".sandbox-read-report.json", ".sandbox-read-report.md", ".sandbox-read-evidence.json",
      ".sandbox-read-evidence.md", ".read-validation-report.json", ".read-validation-report.md"
    }
  }

  predicate DocsSiteReportEnding(ending: string) {
    ending in {".docs-site-report.json", ".docs-site-report.md"}
  }

  predicate ReleaseReadinessEnding(ending: string) {
    ending in {
      ".release-readiness-report.json", ".release-readiness-report.md", ".release-notes-draft.md",
      ".release-blockers.md", ".maintainer-review-checklist.md"
    }
  }

  predicate UsageModeEnding(ending: string) {
    ending in {
      ".mode-report.json", ".mode-report.md", ".doctor-report.json", ".doctor-report.md",
      ".quickstart-report.json", ".quickstart-report.md", ".usability-report.json",
      ".usability-report.md", ".first-run-report.json", ".first-run-report.md",
      ".sandbox-pilot-flow.json", ".sandbox-pilot-flow.md", ".flow-report.json", ".flow-report.md",
      ".pilot-preflight.json", ".pilot-preflight.md", ".sandbox-onboarding-report.json",
      ".sandbox-onboarding-report.md"
    }
  }

  predicate SecretFileEnding(ending: string) {
    ending in {
      ".secret", ".secret.txt", ".secrets.json", ".secrets.env", ".credential", ".credentials.json"
    }
  }

  predicate PrivateWorkspaceEnding(ending: string) {
    ending in {
      ".private.json", ".private.md", ".private.env", ".workspace-report.json",
      ".workspace-report.md", ".workspace-manifest.json"
    }
  }

  predicate CustomerDeploymentEnding(ending: string) {
    ending in {
      ".customer-profile.json", ".customer-deployment-report.json", ".customer-checklist.md"
    }
  }

  predicate PilotApprovalEnding(ending: string) {
    ending in {
      ".pilot-approval-packet.json", ".pilot-approval-packet.md", ".pilot-approval-summary.md",
      ".pilot-approval-manifest.json", ".pilot-signoff.md", ".risk-acceptance.md",
      ".launch-conditions.md", ".rollback-conditions.md"
    }
  }

  predicate EvidenceReviewEnding(ending: string) {
    ending in {
      ".evidence-review.json", ".evidence-review.md", ".evidence-expiry-report.json",
      ".evidence-renewal-checklist.md", ".evidence-signoff.md", ".reviewer-signoff.json"
    }
  }

  predicate PrivateEvidenceEnding(ending: string) {
    ending in {
      ".evidence-manifest.json", ".evidence-index.md", ".evidence-report.json",
      ".evidence-redaction-report.json", ".evidence-checklist.md"
    }
  }

  predicate PilotReadinessEnding(ending: string) {
    ending in {
      ".pilot-readiness.json", ".pilot-readiness.md", ".pilot-readiness-report.json",
      ".pilot-checklist.md", ".go-no-go.md"
    }
  }

  predicate DiagnosticsEnding(ending: string) {
    ending in {
      ".support-bundle.json", ".support-bundle.md", ".support-bundle.log", ".diagnostics.json",
      ".diagnostics.md", ".diagnostics.log", ".redaction-report.json"
    }
  }

  /** PRIVATE_PATH_PARTS, in stretches that can be examined one at a time. */
  predicate PrivateOutputPart(part: string) {
    || PrivateOutputPart1(part) || PrivateOutputPart2(part) || PrivateOutputPart3(part)
    || PrivateOutputPart4(part) || PrivateOutputPart5(part) || PrivateOutputPart6(part)
    || PrivateOutputPart7(part) || PrivateOutputPart8(part) || PrivateOutputPart9(part)
    || PrivateOutputPart10(part) || PrivateOutputPart11(part) || PrivateOutputPart12(part)
    || PrivateOutputPart13(part) || PrivateOutputPart14(part) || PrivateOutputPart15(part)
    || PrivateOutputPart16(part) || PrivateOutputPart17(part) || PrivateOutputPart18(part)
    || PrivateOutputPart19(part) || PrivateOutputPart20(part) || PrivateOutputPart21(part)
    || PrivateOutputPart22(part) || PrivateOutputPart23(part)
  }

  predicate PrivateOutputPart1(part: string) {
    part in {
      ".local-workspace", "doctor-output", "downloads", "customer-deployment-output",
      "customer-output", "diagnostics-output", "logs", "mode-output", "onboarding-output",
      "packet-output", "pilot-output"
    }
  }

  predicate PrivateOutputPart2(part: string) {
    part in {
      "pilot-workspace", "pilot-readiness-output", "private-evidence-output", "private-secrets",
      "private-workspace", "migration-output", "database-output", "db-output", "backup-output",
      "restore-output"
    }
  }

  predicate PrivateOutputPart3(part: string) {
    part in {
      "postgres-ops-output", "postgres-runtime-output", "db-ops-output",
      "migration-execution-output", "backup-verification-output", "restore-drill-output",
      "hosted-deployment-output"
    }
  }

  predicate PrivateOutputPart4(part: string) {
    part in {
      "hosted-deploy-output", "platform-deployment-output", "container-deployment-output",
      "https-webhook-output", "webhook-ingress-output", "tls-planning-output", "dns-planning-output"
    }
  }

  predicate PrivateOutputPart5(part: string) {
    part in {
      "hosted-pilot-dry-run-output", "pilot-dry-run-output", "operations-dry-run-output",
      "launch-rehearsal-output", "final-readiness-output", "public-readiness-output",
      "repo-readiness-output"
    }
  }

  predicate PrivateOutputPart6(part: string) {
    part in {
      "maintainer-handoff-output", "handoff-output", "maintainer-review-output",
      "release-handoff-review-output", "deployment-output", "deploy-output", "release-output",
      "release-readiness-output"
    }
  }

  predicate PrivateOutputPart7(part: string) {
    part in {
      "package-output", "dist-output", "build-output", "site", "docs-site-output",
      "mkdocs-site-output", "tls-output", "cert-output", "dns-output", "infra-output",
      "pilot-evidence-output", "evidence-output"
    }
  }

  predicate PrivateOutputPart8(part: string) {
    part in {
      "private-pilot-evidence", "pilot-evidence", "evidence-review-output",
      "evidence-expiry-output", "evidence-renewal-output", "private-evidence-review",
      "quickstart-output", "first-run-output"
    }
  }

  predicate PrivateOutputPart9(part: string) {
    part in {
      "usability-output", "pilot-approval-output", "approval-packet-output",
      "private-pilot-approval", "pilot-approval-packets", "storage", "smoke-output",
      "sandbox-read-output", "sandbox-validation-output"
    }
  }

  predicate PrivateOutputPart10(part: string) {
    part in {
      "read-validation-output", "sandbox-evidence-output", "sandbox-evidence-linkage-output",
      "evidence-linkage-output", "support-output", "auth-boundary-audit-output",
      "permission-boundary-output"
    }
  }

  predicate PrivateOutputPart11(part: string) {
    part in {
      "auth-review-output", "permission-review-output", "webhook-security-review-output",
      "webhook-hardening-output", "webhook-replay-review-output", "webhook-signature-review-output"
    }
  }

  predicate PrivateOutputPart12(part: string) {
    part in {
      "data-policy-review-output", "data-retention-redaction-output", "retention-redaction-output",
      "redaction-review-output", "data-classification-output", "infra-security-review-output"
    }
  }

  predicate PrivateOutputPart13(part: string) {
    part in {
      "secrets-storage-db-review-output", "secret-storage-review-output",
      "database-security-review-output", "storage-security-review-output",
      "supply-chain-review-output"
    }
  }

  predicate PrivateOutputPart14(part: string) {
    part in {
      "dependency-security-output", "dependency-review-output", "package-security-output",
      "sbom-review-output", "incident-response-review-output", "incident-review-output",
      "forensics-review-output"
    }
  }

  predicate PrivateOutputPart15(part: string) {
    part in {
      "audit-log-review-output", "security-incident-output", "final-security-review-output",
      "security-readiness-output", "final-security-output", "private-security-review-output"
    }
  }

  predicate PrivateOutputPart16(part: string) {
    part in {
      "security-gate-output", "security-gap-closeout-output", "security-closeout-output",
      "privacy-review-output", "encryption-guidance-output", "private-security-action-output"
    }
  }

  predicate PrivateOutputPart17(part: string) {
    part in {
      "setup-experience-output", "installer-review-output", "local-setup-output",
      "setup-diagnostics-output", "sandbox-output", "sandbox-pilot-output", "pilot-flow-output",
      "flow-output", "sandbox-workspace"
    }
  }

  predicate PrivateOutputPart18(part: string) {
    part in {
      "secrets.local", ".local-secrets", "sync-output", "tokens", "api-docs-output",
      "api-reference-output", "route-reference-output", "openapi-review-output",
      "hosted-ui-review-output", "hosted-ui-output"
    }
  }

  predicate PrivateOutputPart19(part: string) {
    part in {
      "ui-readiness-output", "hosted-page-review-output", "docs-site-polish-output",
      "docs-site-review-output", "docs-navigation-output", "docs-reader-path-output",
      "docs-link-check-output"
    }
  }

  predicate PrivateOutputPart20(part: string) {
    part in {
      "version-prep-output", "package-metadata-output", "release-prep-output",
      "version-review-output", "package-review-output", "release-candidate-output",
      "release-candidate-review-output"
    }
  }

  predicate PrivateOutputPart21(part: string) {
    part in {
      "rc-checklist-output", "rc-readiness-output", "candidate-release-output",
      "versioned-release-handoff-output", "versioned-release-output", "release-handoff-output",
      "release-notes-draft-output"
    }
  }

  predicate PrivateOutputPart22(part: string) {
    part in {
      "post-release-checklist-output", "post-release-roadmap-output", "post-release-output",
      "known-limitations-output", "future-work-output", "roadmap-review-output",
      "private-review-output"
    }
  }

  predicate PrivateOutputPart23(part: string) {
    part in {
      "pre-tag-reminder-output"
    }
  }

  /** TEXT_SUFFIXES */
  predicate IsTextSuffix(suffix: string) {
    suffix in {
      "", ".cfg", ".example", ".ini", ".js", ".json", ".md", ".py", ".toml", ".txt", ".yaml",
      ".yml"
    }
  }

  const SKIP_NAMES: set<string> := {"audit_public_safety.py"}
}
