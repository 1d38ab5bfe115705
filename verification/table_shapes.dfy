/** Facts about every string that the cascade's tables list: enough to tell which paths no rule looks for. */
module TableShapes {
  import opened CascadeTables
  import opened Strings

  // ----- No listed part has a capital letter in it

  predicate HasCapital(s: string) {
    exists c :: c in s && IsCapital(c)
  }

  /** The characters of the listed parts. */
  lemma SmallCharacters()
    ensures !IsCapital('a') && !IsCapital('b') && !IsCapital('c') && !IsCapital('d') && !IsCapital('e')
    ensures !IsCapital('f') && !IsCapital('g') && !IsCapital('h') && !IsCapital('i') && !IsCapital('j')
    ensures !IsCapital('k') && !IsCapital('l') && !IsCapital('m') && !IsCapital('n') && !IsCapital('o')
    ensures !IsCapital('p') && !IsCapital('q') && !IsCapital('r') && !IsCapital('s') && !IsCapital('t')
    ensures !IsCapital('u') && !IsCapital('v') && !IsCapital('w') && !IsCapital('x') && !IsCapital('y')
    ensures !IsCapital('z') && !IsCapital('-') && !IsCapital('.')
  {
  }

  lemma PrivatePartsAreSmall1(part: string, c: char)
    requires PrivateOutputPart1(part) && c in part
    ensures !IsCapital(c)
  {
    hide IsCapital;
    SmallCharacters();
  }

  lemma PrivatePartsAreSmall2(part: string, c: char)
    requires PrivateOutputPart2(part) && c in part
    ensures !IsCapital(c)
  {
    hide IsCapital;
    SmallCharacters();
  }

  lemma PrivatePartsAreSmall3(part: string, c: char)
    requires PrivateOutputPart3(part) && c in part
    ensures !IsCapital(c)
  {
    hide IsCapital;
    SmallCharacters();
  }

  lemma PrivatePartsAreSmall4(part: string, c: char)
    requires PrivateOutputPart4(part) && c in part
    ensures !IsCapital(c)
  {
    hide IsCapital;
    SmallCharacters();
  }

  lemma PrivatePartsAreSmall5(part: string, c: char)
    requires PrivateOutputPart5(part) && c in part
    ensures !IsCapital(c)
  {
    hide IsCapital;
    SmallCharacters();
  }

  lemma PrivatePartsAreSmall6(part: string, c: char)
    requires PrivateOutputPart6(part) && c in part
    ensures !IsCapital(c)
  {
    hide IsCapital;
    SmallCharacters();
  }

  lemma PrivatePartsAreSmall7(part: string, c: char)
    requires PrivateOutputPart7(part) && c in part
    ensures !IsCapital(c)
  {
    hide IsCapital;
    SmallCharacters();
  }

  lemma PrivatePartsAreSmall8(part: string, c: char)
    requires PrivateOutputPart8(part) && c in part
    ensures !IsCapital(c)
  {
    hide IsCapital;
    SmallCharacters();
  }

  lemma PrivatePartsAreSmall9(part: string, c: char)
    requires PrivateOutputPart9(part) && c in part
    ensures !IsCapital(c)
  {
    hide IsCapital;
    SmallCharacters();
  }

  lemma PrivatePartsAreSmall10(part: string, c: char)
    requires PrivateOutputPart10(part) && c in part
    ensures !IsCapital(c)
  {
    hide IsCapital;
    SmallCharacters();
  }

  lemma PrivatePartsAreSmall11(part: string, c: char)
    requires PrivateOutputPart11(part) && c in part
    ensures !IsCapital(c)
  {
    hide IsCapital;
    SmallCharacters();
  }

  lemma PrivatePartsAreSmall12(part: string, c: char)
    requires PrivateOutputPart12(part) && c in part
    ensures !IsCapital(c)
  {
    hide IsCapital;
    SmallCharacters();
  }

  lemma PrivatePartsAreSmall13(part: string, c: char)
    requires PrivateOutputPart13(part) && c in part
    ensures !IsCapital(c)
  {
    hide IsCapital;
    SmallCharacters();
  }

  lemma PrivatePartsAreSmall14(part: string, c: char)
    requires PrivateOutputPart14(part) && c in part
    ensures !IsCapital(c)
  {
    hide IsCapital;
    SmallCharacters();
  }

  lemma PrivatePartsAreSmall15(part: string, c: char)
    requires PrivateOutputPart15(part) && c in part
    ensures !IsCapital(c)
  {
    hide IsCapital;
    SmallCharacters();
  }

  lemma PrivatePartsAreSmall16(part: string, c: char)
    requires PrivateOutputPart16(part) && c in part
    ensures !IsCapital(c)
  {
    hide IsCapital;
    SmallCharacters();
  }

  lemma PrivatePartsAreSmall17(part: string, c: char)
    requires PrivateOutputPart17(part) && c in part
    ensures !IsCapital(c)
  {
    hide IsCapital;
    SmallCharacters();
  }

  lemma PrivatePartsAreSmall18(part: string, c: char)
    requires PrivateOutputPart18(part) && c in part
    ensures !IsCapital(c)
  {
    hide IsCapital;
    SmallCharacters();
  }

  lemma PrivatePartsAreSmall19(part: string, c: char)
    requires PrivateOutputPart19(part) && c in part
    ensures !IsCapital(c)
  {
    hide IsCapital;
    SmallCharacters();
  }

  lemma PrivatePartsAreSmall20(part: string, c: char)
    requires PrivateOutputPart20(part) && c in part
    ensures !IsCapital(c)
  {
    hide IsCapital;
    SmallCharacters();
  }

  lemma PrivatePartsAreSmall21(part: string, c: char)
    requires PrivateOutputPart21(part) && c in part
    ensures !IsCapital(c)
  {
    hide IsCapital;
    SmallCharacters();
  }

  lemma PrivatePartsAreSmall22(part: string, c: char)
    requires PrivateOutputPart22(part) && c in part
    ensures !IsCapital(c)
  {
    hide IsCapital;
    SmallCharacters();
  }

  lemma PrivatePartsAreSmall23(part: string, c: char)
    requires PrivateOutputPart23(part) && c in part
    ensures !IsCapital(c)
  {
    hide IsCapital;
    SmallCharacters();
  }

  lemma PrivatePartsAreSmall(part: string, c: char)
    requires PrivateOutputPart(part) && c in part
    ensures !IsCapital(c)
  {
    hide PrivateOutputPart1, PrivateOutputPart2, PrivateOutputPart3, PrivateOutputPart4, PrivateOutputPart5,
      PrivateOutputPart6, PrivateOutputPart7, PrivateOutputPart8, PrivateOutputPart9, PrivateOutputPart10,
      PrivateOutputPart11, PrivateOutputPart12, PrivateOutputPart13, PrivateOutputPart14, PrivateOutputPart15,
      PrivateOutputPart16, PrivateOutputPart17, PrivateOutputPart18, PrivateOutputPart19, PrivateOutputPart20,
      PrivateOutputPart21, PrivateOutputPart22, PrivateOutputPart23;
    if PrivateOutputPart1(part) {
      PrivatePartsAreSmall1(part, c);
    } else if PrivateOutputPart2(part) {
      PrivatePartsAreSmall2(part, c);
    } else if PrivateOutputPart3(part) {
      PrivatePartsAreSmall3(part, c);
    } else if PrivateOutputPart4(part) {
      PrivatePartsAreSmall4(part, c);
    } else if PrivateOutputPart5(part) {
      PrivatePartsAreSmall5(part, c);
    } else if PrivateOutputPart6(part) {
      PrivatePartsAreSmall6(part, c);
    } else if PrivateOutputPart7(part) {
      PrivatePartsAreSmall7(part, c);
    } else if PrivateOutputPart8(part) {
      PrivatePartsAreSmall8(part, c);
    } else if PrivateOutputPart9(part) {
      PrivatePartsAreSmall9(part, c);
    } else if PrivateOutputPart10(part) {
      PrivatePartsAreSmall10(part, c);
    } else if PrivateOutputPart11(part) {
      PrivatePartsAreSmall11(part, c);
    } else if PrivateOutputPart12(part) {
      PrivatePartsAreSmall12(part, c);
    } else if PrivateOutputPart13(part) {
      PrivatePartsAreSmall13(part, c);
    } else if PrivateOutputPart14(part) {
      PrivatePartsAreSmall14(part, c);
    } else if PrivateOutputPart15(part) {
      PrivatePartsAreSmall15(part, c);
    } else if PrivateOutputPart16(part) {
      PrivatePartsAreSmall16(part, c);
    } else if PrivateOutputPart17(part) {
      PrivatePartsAreSmall17(part, c);
    } else if PrivateOutputPart18(part) {
      PrivatePartsAreSmall18(part, c);
    } else if PrivateOutputPart19(part) {
      PrivatePartsAreSmall19(part, c);
    } else if PrivateOutputPart20(part) {
      PrivatePartsAreSmall20(part, c);
    } else if PrivateOutputPart21(part) {
      PrivatePartsAreSmall21(part, c);
    } else if PrivateOutputPart22(part) {
      PrivatePartsAreSmall22(part, c);
    } else if PrivateOutputPart23(part) {
      PrivatePartsAreSmall23(part, c);
    }
  }

  lemma ThreatModelPartsAreSmall(part: string, c: char)
    requires ThreatModelPart(part) && c in part
    ensures !IsCapital(c)
  {
    hide IsCapital;
    SmallCharacters();
  }

  lemma DemoWalkthroughPartsAreSmall(part: string, c: char)
    requires DemoWalkthroughPart(part) && c in part
    ensures !IsCapital(c)
  {
    hide IsCapital;
    SmallCharacters();
  }

  lemma DemoDataPartsAreSmall(part: string, c: char)
    requires DemoDataPart(part) && c in part
    ensures !IsCapital(c)
  {
    hide IsCapital;
    SmallCharacters();
  }

  // The parts that the other rules list are long, no workspace names, and all but twelve private parts too.

  predicate IsWorkspaceName(part: string) {
    part == "private-workspace" || part == "private-workspaces"
  }

  predicate IsLongPart(part: string) {
    |part| > 12 && !IsWorkspaceName(part)
  }

  predicate SharedParts1(part: string) {
    || VersionedReleasePart(part) || ReleaseCandidatePart(part)
  }

  lemma SharedPartsArePrivate1(part: string)
    requires SharedParts1(part)
    ensures PrivateOutputPart(part)
  {
    hide PrivateOutputPart1, PrivateOutputPart2, PrivateOutputPart3, PrivateOutputPart4, PrivateOutputPart5,
      PrivateOutputPart6, PrivateOutputPart7, PrivateOutputPart8, PrivateOutputPart9, PrivateOutputPart10,
      PrivateOutputPart11, PrivateOutputPart12, PrivateOutputPart13, PrivateOutputPart14, PrivateOutputPart15,
      PrivateOutputPart16, PrivateOutputPart17, PrivateOutputPart18, PrivateOutputPart19;
  }

  lemma SharedPartsAreLong1(part: string)
    requires SharedParts1(part)
    ensures IsLongPart(part)
  {
  }

  predicate SharedParts2(part: string) {
    || VersionPrepPart(part) || DocsSitePolishPart(part) || HostedUiPart(part)
    || ApiDocsPart(part)
  }

  lemma SharedPartsArePrivate2(part: string)
    requires SharedParts2(part)
    ensures PrivateOutputPart(part)
  {
    hide PrivateOutputPart1, PrivateOutputPart2, PrivateOutputPart3, PrivateOutputPart4, PrivateOutputPart5,
      PrivateOutputPart6, PrivateOutputPart7, PrivateOutputPart8, PrivateOutputPart9, PrivateOutputPart10,
      PrivateOutputPart11, PrivateOutputPart12, PrivateOutputPart13, PrivateOutputPart14, PrivateOutputPart15,
      PrivateOutputPart16, PrivateOutputPart17, PrivateOutputPart21, PrivateOutputPart22, PrivateOutputPart23;
  }

  lemma SharedPartsAreLong2(part: string)
    requires SharedParts2(part)
    ensures IsLongPart(part)
  {
  }

  predicate SharedParts3(part: string) {
    || AuthBoundaryPart(part) || WebhookSecurityPart(part) || DataPolicyPart(part)
  }

  lemma SharedPartsArePrivate3(part: string)
    requires SharedParts3(part)
    ensures PrivateOutputPart(part)
  {
    hide PrivateOutputPart1, PrivateOutputPart2, PrivateOutputPart3, PrivateOutputPart4, PrivateOutputPart5,
      PrivateOutputPart6, PrivateOutputPart7, PrivateOutputPart8, PrivateOutputPart9, PrivateOutputPart13,
      PrivateOutputPart14, PrivateOutputPart15, PrivateOutputPart16, PrivateOutputPart17, PrivateOutputPart18,
      PrivateOutputPart19, PrivateOutputPart20, PrivateOutputPart21, PrivateOutputPart22, PrivateOutputPart23;
  }

  lemma SharedPartsAreLong3(part: string)
    requires SharedParts3(part)
    ensures IsLongPart(part)
  {
  }

  predicate SharedParts4(part: string) {
    || InfraSecurityPart(part) || SupplyChainPart(part) || IncidentResponsePart(part)
  }

  lemma SharedPartsArePrivate4(part: string)
    requires SharedParts4(part)
    ensures PrivateOutputPart(part)
  {
    hide PrivateOutputPart1, PrivateOutputPart2, PrivateOutputPart3, PrivateOutputPart4, PrivateOutputPart5,
      PrivateOutputPart6, PrivateOutputPart7, PrivateOutputPart8, PrivateOutputPart9, PrivateOutputPart10,
      PrivateOutputPart11, PrivateOutputPart16, PrivateOutputPart17, PrivateOutputPart18, PrivateOutputPart19,
      PrivateOutputPart20, PrivateOutputPart21, PrivateOutputPart22, PrivateOutputPart23;
  }

  lemma SharedPartsAreLong4(part: string)
    requires SharedParts4(part)
    ensures IsLongPart(part)
  {
  }

  predicate SharedParts5(part: string) {
    || SecurityGapPart(part) || SetupExperiencePart(part) || FinalSecurityPart(part)
  }

  lemma SharedPartsArePrivate5(part: string)
    requires SharedParts5(part)
    ensures PrivateOutputPart(part)
  {
    hide PrivateOutputPart1, PrivateOutputPart2, PrivateOutputPart3, PrivateOutputPart4, PrivateOutputPart5,
      PrivateOutputPart6, PrivateOutputPart7, PrivateOutputPart9, PrivateOutputPart10, PrivateOutputPart11,
      PrivateOutputPart12, PrivateOutputPart13, PrivateOutputPart14, PrivateOutputPart18, PrivateOutputPart19,
      PrivateOutputPart20, PrivateOutputPart21, PrivateOutputPart22, PrivateOutputPart23;
  }

  lemma SharedPartsAreLong5(part: string)
    requires SharedParts5(part)
    ensures IsLongPart(part)
  {
  }

  predicate OwnParts(part: string) {
    ThreatModelPart(part) || DemoWalkthroughPart(part) || DemoDataPart(part)
  }

  lemma OwnPartsAreLong(part: string)
    requires OwnParts(part)
    ensures IsLongPart(part)
  {
  }

  lemma PartsBelongSomewhere(rule: Rule, part: string)
    requires rule != PrivateOutputPath && IsPart(rule)(part)
    ensures SharedParts1(part) || SharedParts2(part) || SharedParts3(part)
      || SharedParts4(part) || SharedParts5(part) || OwnParts(part)
  {
    hide VersionedReleasePart, ReleaseCandidatePart, VersionPrepPart, DocsSitePolishPart, HostedUiPart,
      ApiDocsPart, AuthBoundaryPart, WebhookSecurityPart, DataPolicyPart, InfraSecurityPart, SupplyChainPart,
      IncidentResponsePart, SecurityGapPart, SetupExperiencePart, FinalSecurityPart, ThreatModelPart,
      DemoWalkthroughPart, DemoDataPart, PrivateOutputPart;
  }

  /** The parts that rules other than the one for private paths list. */
  lemma PartsOfOtherRules(rule: Rule, part: string)
    requires rule != PrivateOutputPath && IsPart(rule)(part)
    ensures IsLongPart(part) && (PrivateOutputPart(part) || OwnParts(part))
  {
    hide IsPart, PrivateOutputPart, IsLongPart, OwnParts;
    hide SharedParts1, SharedParts2, SharedParts3, SharedParts4, SharedParts5;
    PartsBelongSomewhere(rule, part);
    if SharedParts1(part) {
      SharedPartsArePrivate1(part);
      SharedPartsAreLong1(part);
    } else if SharedParts2(part) {
      SharedPartsArePrivate2(part);
      SharedPartsAreLong2(part);
    } else if SharedParts3(part) {
      SharedPartsArePrivate3(part);
      SharedPartsAreLong3(part);
    } else if SharedParts4(part) {
      SharedPartsArePrivate4(part);
      SharedPartsAreLong4(part);
    } else if SharedParts5(part) {
      SharedPartsArePrivate5(part);
      SharedPartsAreLong5(part);
    } else {
      OwnPartsAreLong(part);
    }
  }

  lemma PrivatePartTable()
    ensures IsPart(PrivateOutputPath) == PrivateOutputPart
  {
  }

  /** Every part that any rule lists is in lower case. */
  lemma ListedPartsAreSmall(rule: Rule, part: string)
    requires IsPart(rule)(part)
    ensures !HasCapital(part)
  {
    hide IsPart, PrivateOutputPart, ThreatModelPart, DemoWalkthroughPart, DemoDataPart;
    PrivatePartTable();
    if rule != PrivateOutputPath {
      PartsOfOtherRules(rule, part);
    }
    forall c | c in part
      ensures !IsCapital(c)
    {
      if PrivateOutputPart(part) {
        PrivatePartsAreSmall(part, c);
      } else if ThreatModelPart(part) {
        ThreatModelPartsAreSmall(part, c);
      } else if DemoWalkthroughPart(part) {
        DemoWalkthroughPartsAreSmall(part, c);
      } else {
        DemoDataPartsAreSmall(part, c);
      }
    }
  }

  // ----- Every listed ending is long

  predicate EndingTables1(ending: string) {
    || SmokeEnding(ending) || VersionedReleaseEnding(ending)
  }

  lemma EndingsAreLong1(ending: string)
    requires EndingTables1(ending)
    ensures |ending| > 6 && ending[0] == '.'
  {
  }

  predicate EndingTables2(ending: string) {
    || ReleaseCandidateEnding(ending) || VersionPrepEnding(ending)
    || DocsSitePolishEnding(ending) || HostedUiEnding(ending)
  }

  lemma EndingsAreLong2(ending: string)
    requires EndingTables2(ending)
    ensures |ending| > 6 && ending[0] == '.'
  {
  }

  predicate EndingTables3(ending: string) {
    || ApiDocsEnding(ending) || DemoWalkthroughEnding(ending) || ThreatModelEnding(ending)
    || AuthBoundaryEnding(ending) || WebhookSecurityEnding(ending)
  }

  lemma EndingsAreLong3(ending: string)
    requires EndingTables3(ending)
    ensures |ending| > 6 && ending[0] == '.'
  {
  }

  predicate EndingTables4(ending: string) {
    || DataPolicyEnding(ending) || InfraSecurityEnding(ending) || SupplyChainEnding(ending)
    || IncidentResponseEnding(ending)
  }

  lemma EndingsAreLong4(ending: string)
    requires EndingTables4(ending)
    ensures |ending| > 6 && ending[0] == '.'
  {
  }

  predicate EndingTables5(ending: string) {
    || SecurityGapEnding(ending) || DemoDataEnding(ending) || SetupExperienceEnding(ending)
    || FinalSecurityEnding(ending)
  }

  lemma EndingsAreLong5(ending: string)
    requires EndingTables5(ending)
    ensures |ending| > 6 && ending[0] == '.'
  {
  }

  predicate EndingTables6(ending: string) {
    || HostedDeploymentEnding(ending) || OperatorExportEnding(ending)
  }

  lemma EndingsAreLong6(ending: string)
    requires EndingTables6(ending)
    ensures |ending| > 6 && ending[0] == '.'
  {
  }

  predicate EndingTables7(ending: string) {
    || FinalReadinessEnding(ending) || PilotDryRunEnding(ending)
    || WebhookPlanningEnding(ending) || PostgresLogEnding(ending)
  }

  lemma EndingsAreLong7(ending: string)
    requires EndingTables7(ending)
    ensures |ending| > 6 && ending[0] == '.'
  {
  }

  predicate EndingTables8(ending: string) {
    || PostgresEnding(ending) || SmokeTranscriptEnding(ending) || EvidenceLinkageEnding(ending)
    || ReadValidationEnding(ending) || DocsSiteReportEnding(ending)
  }

  lemma EndingsAreLong8(ending: string)
    requires EndingTables8(ending)
    ensures |ending| > 6 && ending[0] == '.'
  {
  }

  predicate EndingTables9(ending: string) {
    || ReleaseReadinessEnding(ending) || UsageModeEnding(ending)
  }

  lemma EndingsAreLong9(ending: string)
    requires EndingTables9(ending)
    ensures |ending| > 6 && ending[0] == '.'
  {
  }

  predicate EndingTables10(ending: string) {
    || SecretFileEnding(ending) || PrivateWorkspaceEnding(ending)
    || CustomerDeploymentEnding(ending) || PilotApprovalEnding(ending)
  }

  lemma EndingsAreLong10(ending: string)
    requires EndingTables10(ending)
    ensures |ending| > 6 && ending[0] == '.'
  {
  }

  predicate EndingTables11(ending: string) {
    || EvidenceReviewEnding(ending) || PrivateEvidenceEnding(ending)
    || PilotReadinessEnding(ending) || DiagnosticsEnding(ending)
  }

  lemma EndingsAreLong11(ending: string)
    requires EndingTables11(ending)
    ensures |ending| > 6 && ending[0] == '.'
  {
  }

  lemma EndingsBelongSomewhere(rule: Rule, ending: string)
    requires IsEnding(rule)(ending)
    ensures
      || EndingTables1(ending) || EndingTables2(ending) || EndingTables3(ending)
      || EndingTables4(ending) || EndingTables5(ending) || EndingTables6(ending)
      || EndingTables7(ending) || EndingTables8(ending) || EndingTables9(ending)
      || EndingTables10(ending) || EndingTables11(ending)
  {
    hide SmokeEnding, VersionedReleaseEnding, ReleaseCandidateEnding, VersionPrepEnding, DocsSitePolishEnding,
      HostedUiEnding, ApiDocsEnding, DemoWalkthroughEnding, ThreatModelEnding, AuthBoundaryEnding,
      WebhookSecurityEnding, DataPolicyEnding, InfraSecurityEnding, SupplyChainEnding, IncidentResponseEnding,
      SecurityGapEnding, DemoDataEnding, SetupExperienceEnding, FinalSecurityEnding, HostedDeploymentEnding,
      OperatorExportEnding, FinalReadinessEnding, PilotDryRunEnding, WebhookPlanningEnding, PostgresLogEnding,
      PostgresEnding, SmokeTranscriptEnding, EvidenceLinkageEnding, ReadValidationEnding, DocsSiteReportEnding,
      ReleaseReadinessEnding, UsageModeEnding, SecretFileEnding, PrivateWorkspaceEnding,
      CustomerDeploymentEnding, PilotApprovalEnding, EvidenceReviewEnding, PrivateEvidenceEnding,
      PilotReadinessEnding, DiagnosticsEnding;
  }

  /** Every ending that any rule lists begins with a dot and has more than six characters. */
  lemma EndingsAreLong(rule: Rule, ending: string)
    requires IsEnding(rule)(ending)
    ensures |ending| > 6 && ending[0] == '.'
  {
    hide IsEnding;
    hide EndingTables1, EndingTables2, EndingTables3, EndingTables4, EndingTables5, EndingTables6,
      EndingTables7, EndingTables8, EndingTables9, EndingTables10, EndingTables11;
    EndingsBelongSomewhere(rule, ending);
    if EndingTables1(ending) {
      EndingsAreLong1(ending);
    } else if EndingTables2(ending) {
      EndingsAreLong2(ending);
    } else if EndingTables3(ending) {
      EndingsAreLong3(ending);
    } else if EndingTables4(ending) {
      EndingsAreLong4(ending);
    } else if EndingTables5(ending) {
      EndingsAreLong5(ending);
    } else if EndingTables6(ending) {
      EndingsAreLong6(ending);
    } else if EndingTables7(ending) {
      EndingsAreLong7(ending);
    } else if EndingTables8(ending) {
      EndingsAreLong8(ending);
    } else if EndingTables9(ending) {
      EndingsAreLong9(ending);
    } else if EndingTables10(ending) {
      EndingsAreLong10(ending);
    } else {
      EndingsAreLong11(ending);
    }
  }

  // ----- Whole names are long, and Markdown is no listed suffix

  lemma NamesAreLong(rule: Rule, name: string)
    requires IsName(rule)(name)
    ensures |name| > 6
  {
  }

  lemma MarkdownIsUnlisted(rule: Rule)
    ensures !IsSuffix(rule)(".md") && IsTextSuffix(".md")
  {
  }

  // ----- The documentation configuration is listed by no table

  lemma DocsConfigNameIsUnlisted(rule: Rule)
    ensures !IsName(rule)("mkdocs.yml") && !IsSuffix(rule)(".yml") && IsTextSuffix(".yml")
  {
  }

  lemma DocsConfigIsNoPrivatePart1()
    ensures
      && !PrivateOutputPart1("mkdocs.yml") && !PrivateOutputPart2("mkdocs.yml")
      && !PrivateOutputPart3("mkdocs.yml") && !PrivateOutputPart4("mkdocs.yml")
      && !PrivateOutputPart5("mkdocs.yml") && !PrivateOutputPart6("mkdocs.yml")
  {
  }

  lemma DocsConfigIsNoPrivatePart2()
    ensures
      && !PrivateOutputPart7("mkdocs.yml") && !PrivateOutputPart8("mkdocs.yml")
      && !PrivateOutputPart9("mkdocs.yml") && !PrivateOutputPart10("mkdocs.yml")
      && !PrivateOutputPart11("mkdocs.yml") && !PrivateOutputPart12("mkdocs.yml")
  {
  }

  lemma DocsConfigIsNoPrivatePart3()
    ensures
      && !PrivateOutputPart13("mkdocs.yml") && !PrivateOutputPart14("mkdocs.yml")
      && !PrivateOutputPart15("mkdocs.yml") && !PrivateOutputPart16("mkdocs.yml")
      && !PrivateOutputPart17("mkdocs.yml") && !PrivateOutputPart18("mkdocs.yml")
  {
  }

  lemma DocsConfigIsNoPrivatePart4()
    ensures
      && !PrivateOutputPart19("mkdocs.yml") && !PrivateOutputPart20("mkdocs.yml")
      && !PrivateOutputPart21("mkdocs.yml") && !PrivateOutputPart22("mkdocs.yml")
      && !PrivateOutputPart23("mkdocs.yml")
  {
  }

  lemma DocsConfigPartIsUnlisted(rule: Rule)
    ensures !IsPart(rule)("mkdocs.yml")
  {
    hide IsPart;
    hide PrivateOutputPart1, PrivateOutputPart2, PrivateOutputPart3, PrivateOutputPart4, PrivateOutputPart5,
      PrivateOutputPart6, PrivateOutputPart7, PrivateOutputPart8, PrivateOutputPart9, PrivateOutputPart10,
      PrivateOutputPart11, PrivateOutputPart12, PrivateOutputPart13, PrivateOutputPart14, PrivateOutputPart15,
      PrivateOutputPart16, PrivateOutputPart17, PrivateOutputPart18, PrivateOutputPart19, PrivateOutputPart20,
      PrivateOutputPart21, PrivateOutputPart22, PrivateOutputPart23;
    DocsConfigIsNoPrivatePart1();
    DocsConfigIsNoPrivatePart2();
    DocsConfigIsNoPrivatePart3();
    DocsConfigIsNoPrivatePart4();
    PrivatePartTable();
    if rule != PrivateOutputPath && IsPart(rule)("mkdocs.yml") {
      PartsOfOtherRules(rule, "mkdocs.yml");
    }
  }
}
