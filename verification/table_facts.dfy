/** What the tables of the three path checks have in common, string by string. */
module TableFacts {
  import opened CascadeTables
  import opened Strings
  import opened UsabilityAudit
  import opened WorkspaceGitSafety

  // ----- GENERATED_PARTS and its endings, inside the cascade's tables

  lemma GeneratedPartListed(part: string)
    requires IsGeneratedPart(part)
    ensures PrivateOutputPart(part) || ThreatModelPart(part) || DemoDataPart(part)
  {
  }

  lemma GeneratedEndingListed(ending: string)
    requires IsGeneratedEnding(ending)
    ensures
      UsageModeEnding(ending) || DocsSiteReportEnding(ending) || ReadValidationEnding(ending)
      || EvidenceLinkageEnding(ending) || AuthBoundaryEnding(ending) || WebhookSecurityEnding(ending)
      || DataPolicyEnding(ending) || InfraSecurityEnding(ending) || SupplyChainEnding(ending)
      || IncidentResponseEnding(ending) || FinalSecurityEnding(ending) || SecurityGapEnding(ending)
      || SetupExperienceEnding(ending) || DemoDataEnding(ending) || ApiDocsEnding(ending)
      || HostedUiEnding(ending) || DocsSitePolishEnding(ending) || VersionPrepEnding(ending)
      || ReleaseCandidateEnding(ending) || VersionedReleaseEnding(ending)
  {
  }

  lemma PartTables()
    ensures IsPart(PrivateOutputPath) == PrivateOutputPart
    ensures IsPart(ThreatModelOutput) == ThreatModelPart
    ensures IsPart(DemoDataOutput) == DemoDataPart
  {
  }

  lemma EndingTables1()
    ensures IsEnding(UsageModeOutput) == UsageModeEnding
    ensures IsEnding(DocsSiteReport) == DocsSiteReportEnding
    ensures IsEnding(ReadValidationOutput) == ReadValidationEnding
    ensures IsEnding(EvidenceLinkageOutput) == EvidenceLinkageEnding
  {
  }

  lemma EndingTables2()
    ensures IsEnding(AuthBoundaryOutput) == AuthBoundaryEnding
    ensures IsEnding(WebhookSecurityOutput) == WebhookSecurityEnding
    ensures IsEnding(DataPolicyOutput) == DataPolicyEnding
    ensures IsEnding(InfraSecurityOutput) == InfraSecurityEnding
  {
  }

  lemma EndingTables3()
    ensures IsEnding(SupplyChainOutput) == SupplyChainEnding
    ensures IsEnding(IncidentResponseOutput) == IncidentResponseEnding
    ensures IsEnding(FinalSecurityOutput) == FinalSecurityEnding
    ensures IsEnding(SecurityGapOutput) == SecurityGapEnding
  {
  }

  lemma EndingTables4()
    ensures IsEnding(SetupExperienceOutput) == SetupExperienceEnding
    ensures IsEnding(DemoDataOutput) == DemoDataEnding
    ensures IsEnding(ApiDocsOutput) == ApiDocsEnding
    ensures IsEnding(HostedUiOutput) == HostedUiEnding
  {
  }

  lemma EndingTables5()
    ensures IsEnding(DocsSitePolishOutput) == DocsSitePolishEnding
    ensures IsEnding(VersionPrepOutput) == VersionPrepEnding
    ensures IsEnding(ReleaseCandidateOutput) == ReleaseCandidateEnding
    ensures IsEnding(VersionedReleaseOutput) == VersionedReleaseEnding
  {
  }

  predicate CoveredPart(part: string, isPart: Rule -> string -> bool) {
    isPart(PrivateOutputPath)(part) || isPart(ThreatModelOutput)(part) || isPart(DemoDataOutput)(part)
  }

  /** None of these rules is subject to an exemption. */
  predicate CoveredEnding(ending: string, isEnding: Rule -> string -> bool) {
    isEnding(UsageModeOutput)(ending) || isEnding(DocsSiteReport)(ending)
    || isEnding(ReadValidationOutput)(ending) || isEnding(EvidenceLinkageOutput)(ending)
    || isEnding(AuthBoundaryOutput)(ending) || isEnding(WebhookSecurityOutput)(ending)
    || isEnding(DataPolicyOutput)(ending) || isEnding(InfraSecurityOutput)(ending)
    || isEnding(SupplyChainOutput)(ending) || isEnding(IncidentResponseOutput)(ending)
    || isEnding(FinalSecurityOutput)(ending) || isEnding(SecurityGapOutput)(ending)
    || isEnding(SetupExperienceOutput)(ending) || isEnding(DemoDataOutput)(ending)
    || isEnding(ApiDocsOutput)(ending) || isEnding(HostedUiOutput)(ending)
    || isEnding(DocsSitePolishOutput)(ending) || isEnding(VersionPrepOutput)(ending)
    || isEnding(ReleaseCandidateOutput)(ending) || isEnding(VersionedReleaseOutput)(ending)
  }

  lemma GeneratedPartCovered(part: string)
    requires IsGeneratedPart(part)
    ensures CoveredPart(part, IsPart)
  {
    GeneratedPartListed(part);
    PartTables();
  }

  lemma GeneratedEndingCovered(ending: string)
    requires IsGeneratedEnding(ending)
    ensures CoveredEnding(ending, IsEnding)
  {
    GeneratedEndingListed(ending);
    EndingTables1();
    EndingTables2();
    EndingTables3();
    EndingTables4();
    EndingTables5();
  }

  // ----- Suffixes and whole names

  lemma UnsafeSuffixListed(suffix: string)
    requires IsUnsafeSuffix(suffix) && suffix != ".log"
    ensures LocalDatabaseSuffix(suffix) || DatabaseDumpSuffix(suffix) || CertificateOrInfraStateSuffix(suffix)
      || BinaryFileSuffix(suffix)
  {
  }

  lemma SuffixTables()
    ensures IsSuffix(LocalDatabase) == LocalDatabaseSuffix
    ensures IsSuffix(DatabaseDump) == DatabaseDumpSuffix
    ensures IsSuffix(CertificateOrInfraState) == CertificateOrInfraStateSuffix
    ensures IsSuffix(BinaryFile) == BinaryFileSuffix
  {
  }

  predicate CoveredSuffix(suffix: string, isSuffix: Rule -> string -> bool) {
    || isSuffix(LocalDatabase)(suffix) || isSuffix(DatabaseDump)(suffix)
    || isSuffix(CertificateOrInfraState)(suffix) || isSuffix(BinaryFile)(suffix)
  }

  lemma UnsafeSuffixCovered(suffix: string)
    requires IsUnsafeSuffix(suffix) && suffix != ".log"
    ensures CoveredSuffix(suffix, IsSuffix)
  {
    UnsafeSuffixListed(suffix);
    SuffixTables();
  }

  /** No rule and no text scan looks for the suffix ".log". */
  lemma LogSuffixUnlisted(rule: Rule)
    ensures !IsSuffix(rule)(".log") && !IsTextSuffix(".log")
  {
  }

  /** The whole names of the cascade do not end in "g", as a ".log" file would. */
  lemma NamesAreNoLogs(rule: Rule, name: string)
    requires IsName(rule)(name)
    ensures name != "" && LowerChar(name[|name| - 1]) != 'g'
  {
  }

  // ----- The git check's tables

  lemma WorkspacePartCovered(part: string)
    requires IsPrivatePart(part)
    ensures PrivateOutputPart(part)
  {
  }

  lemma WorkspaceSuffixCovered(ending: string)
    requires ending in PRIVATE_SUFFIXES
    ensures PrivateWorkspaceEnding(ending)
  {
  }

}
