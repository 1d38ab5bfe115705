# Verification of the intake auditors, the attachment reconciler and the sync-profile store

A Dafny 4.11 model of the parts of the repository that decide something, with proofs about them.
`dafny verify dfyconfig.toml` checks the whole project.

## What is modelled

**The public-safety auditor** (`scripts/audit_public_safety.py`). `audit_text` runs ordered checks over each
line, lets a qualifying phrase in the line or in up to two lines before it excuse a claim, and stops at the
first violation; the first sixteen of its blocks with this form are modelled. `audit_paths` sends every file
through fifty path rules, each of which settles the file with one issue, and scans the text of what is left.
Paths are sequences of parts, strings are ASCII, the qualifier expressions are concrete sets of word-bounded
phrases, and the material and claim expressions are arbitrary predicates on lines, so every theorem holds
whatever they match. Modules: `Strings`, `Qualifiers`, `Paths`, `LineBlocks`, `CascadeTables`,
`PathCascade`, `Sequences`, `PathRules`, which says of the parts, name and text of a path what a rule wants
and what the loop makes of a file, and `TextAudit`, which puts the sixteen blocks together with arbitrary
other checks between them and follows one line of one file into the result of a whole run.

**Its two siblings.** The tracked-output loop of `scripts/audit_public_usability.py` and the unsafe-path
predicate of `scripts/check_private_workspace_git_safety.py` keep rule tables of their own; the project
proves where the three agree, and exactly where they do not. Modules: `UsabilityAudit`,
`WorkspaceGitSafety`, `TableFacts`, `TableShapes`, `AuditCoverage`, `Exemptions`, and `CoverageGaps` with a
path for every gap.

**The attachment reconciler** (`scripts/plan_attachments_for_intake.py`): insert a manifest row for every
intake attachment unless one with the same five-column identity exists. A class with a mutable table,
a ghost set of the identities in it, and a commit at the end. Module: `AttachmentReconciler`.

**The route auditor** (`scripts/audit_routes_read_only.py`), over any route table and any classifiers.
Modules: `RouteAudit`, `RoutePolicy` (every reason said of the text of a path, the method and the
classifications, and the audit's result in those terms), `StringOrder` (the order that `sorted` uses, and
that sorting a set has one result), `RouteExamples` (a table that passes, a route that is not seen).

**The sync-profile store and onboarding** (`app/routers/sync_profiles.py`, `app/routers/connections.py`,
`app/routers/onboarding.py`). A request is two steps: it reads the committed tables and works on its own
copy of a row, and later commits the columns whose value differs from what it read. `SyncProfileStore`
holds both steps and a class whose methods perform a request without interruption; `SyncProfileRuns` lets
any number of requests interleave and proves what holds in every reachable state; `SyncProfileRules` says of
payloads and columns what each request is answered and what each event changes; `Onboarding` enriches a
packet request from a connection and its profiles.

## What the proofs found

- *Windows.* Searching a space-joined window equals searching its lines one by one, for every text, if and
  only if breaking a phrase at any of its spaces leaves a qualifying piece. Every phrase set the auditor
  searches in a three-line window has this property, so each window could be a counter. The phrase set of
  the security-gap block does not ("future work"); that block searches single lines only.
- *`.log` files.* The usability auditor refuses the suffix `.log`; no rule of the safety auditor looks for
  it and the text scan skips it. Such a file is reported if and only if its directory or its name ending is
  listed for another reason; `A.log` in a root of unlisted parts passes without a
  word.
- *The fake example workspace* is exempt in three different ways. The safety auditor looks for a substring
  of the path as given, which also exempts look-alike names and can match across the root of a run: below
  any root that ends in `examples`, a workspace file that the git check calls unsafe is not reported.
- *The GitHub workflow rule* compares the first two parts of the path. The default run names files below an
  absolute root, so there this rule never applies.
- *Letter case.* The usability auditor lowers path parts before it looks them up, the safety auditor does
  not, and no rule of the latter lists a part with a capital letter. A path failed as generated output is
  reported if and only if a rule without exemption catches it or it looks private, as written, outside the
  fake example workspace. `Site/A.md` is failed by the one and only text-scanned by the other.
- *Skipped files.* The safety auditor's loop passes over its own file name in any directory, and over every
  tracked path that is not a file; the usability auditor judges both by their paths.
- *Agreement.* Apart from these four gaps (capitals, log files, exemptions, skipped files) a silent run of the
  safety auditor over a file leaves the usability auditor no generated output and no artifact to fail there.
- *The reconciler aborts* if and only if some attachment that is the first of a missing identity cannot be
  planned. With two attachments of one identity, only one of them plannable, their order decides.
- *Wrapped routers.* The route audit sees every route if and only if no router is wrapped twice around one.
- *Concurrent updates.* The rule that a profile keeps at least one source is checked on the copy a request
  read. Two updates that each switch off a different source can both be accepted. Over a whole run every
  profile has a source in every state if and only if no commit finds its request overtaken in this way, and
  updates that take turns never are.
- *Explicit NULLs.* An update may carry `null` for a column that is declared NOT NULL. It fails at the commit,
  with an integrity error that nothing catches, if and only if it passes every check before and carries a
  `null`; `{"enabled": null}` is such an update for every profile with a source on. The tables stay as they were.
- *Tool order.* A new profile can change the order of the enriched tools: RFIs are put before submittals
  that an earlier profile alone had added.

## Model

| member | source | states |
|---|---|---|
| Qualifiers.JoinKeepsQualifier | scripts/audit_public_safety.py:600-604 | A qualifier on any line of a window is found in the joined window. |
| Qualifiers.JoinAddsNoQualifier | scripts/audit_public_safety.py:600-604 | With a split-closed phrase set, a qualifier found in the joined window is on one of its lines. |
| Qualifiers.JoinedSearchIsPerLine | scripts/audit_public_safety.py:424-427 | For every window, joined search and per-line search agree, if and only if every phrase broken at a space leaves a qualifying piece. |
| Qualifiers.Unstraddle | scripts/audit_public_safety.py:600-604 | A match that straddles a joining space leaves a match on one side of it. |
| Qualifiers.BrokenPhrase | scripts/audit_public_safety.py:600-604 | A phrase broken over two lines at a space is found again in the joined window. |
| Qualifiers.WindowQualifiersSplitClosed | scripts/audit_public_safety.py:602-607 | The setup-safety phrases with any of the windowed blocks' additions are split-closed and without an empty phrase. |
| Qualifiers.SecurityGapNeedsWholeLine | scripts/audit_public_safety.py:407-411 | The security-gap phrases are not split-closed: a phrase broken over two lines is found only after joining. |
| Qualifiers.SearchMeans | scripts/audit_public_safety.py:424-427 | A search finds something exactly when the line has, in any letter case, one of the phrases with no word character on either side. |
| LineBlocks.ScanBlock | scripts/audit_public_safety.py:600-618 | The loop yields nothing exactly when every line passes every check, else the one issue of the first failing check at the first failing line; where the window can be searched line by line, said of the lines themselves. |
| LineBlocks.ScanIsFirstViolation | scripts/audit_public_safety.py:636-664 | The scan, from any line on, is the first violation, lines before checks; silence means every line is clean. |
| LineBlocks.FirstViolationIsUnique | scripts/audit_public_safety.py:759-774 | There is at most one first violation, so the reported issue is determined. |
| LineBlocks.VerdictIsFirstCheck | scripts/audit_public_safety.py:608-618 | On one line, the checks in order yield the first that fires, or nothing if none does. |
| LineBlocks.WiderWindowFlagsLess | scripts/audit_public_safety.py:733-746 | A line flagged under a window is flagged under every narrower window. |
| LineBlocks.PrependedLinesFlagLess | scripts/audit_public_safety.py:733-746 | Lines put in front of a text can only silence claims on its first lines; private-material checks and later lines are unaffected. |
| LineBlocks.ScanInChunks | scripts/audit_public_safety.py:787-800 | Scanning a text in two chunks: a fired chunk settles the result, a silent one passes on only its last two lines. |
| LineBlocks.StreamEqualsScan | scripts/audit_public_safety.py:600-618 | A one-pass scanner that counts the lines since the last qualifier finds what the windowed scanner finds. |
| LineBlocks.WindowedContexts | scripts/audit_public_safety.py:583-826 | The qualifier set of every block with a window is split-closed. |
| LineBlocks.BlocksCanStream | scripts/audit_public_safety.py:583-1004 | Each of the first sixteen blocks equals its streaming form on every text. |
| LineBlocks.MaterialIsNeverHidden | scripts/audit_public_safety.py:608-613 | A line with private material makes its block report something, whatever qualifiers surround it. |
| LineBlocks.BlockPassesIffLinesPass | scripts/audit_public_safety.py:583-618 | A block is silent exactly when it does not apply or every line is clean; what it reports stays when lines are appended. |
| LineBlocks.SafeValueMeans | scripts/audit_public_safety.py:576-578 | A placeholder is a line with one of the markers in it in any letter case, or with a brace in front. |
| LineBlocks.ScanReportsIff | scripts/audit_public_safety.py:600-618 | A scan reports something exactly when some line matches a check's expression, is no exempt placeholder, has no qualifier in reach where that excuses it and none of the check's own; it reports the first check broken by the first such line. |
| LineBlocks.BlockReportsIff | scripts/audit_public_safety.py:583-1004 | The same of each block, its window and its qualifiers. |
| LineBlocks.BlocksReachTwoLines | scripts/audit_public_safety.py:602-607 | In six blocks a qualifier two lines up excuses a claim; a qualifier three lines up excuses none in any block. |
| LineBlocks.BlocksReachOneLine | scripts/audit_public_safety.py:692-705 | In the other ten blocks only the claim's own line is searched for qualifiers. |
| LineBlocks.ScansMeans | scripts/audit_public_safety.py:583-599 | A block looks at a path exactly when its text names a marker and it leads through none of three directories. |
| TextAudit.AuditBlock | scripts/audit_public_safety.py:583-618 | One block reports at most one issue: something exactly when its path is looked at and some line breaks a check, and then the described issue of the first check that the first such line breaks. |
| TextAudit.AuditText | scripts/audit_public_safety.py:581-1457 | The blocks in order, with whatever other checks stand after each, append the specified issues. |
| TextAudit.TextIssuesAre | scripts/audit_public_safety.py:581-1457 | An issue is reported exactly when some block reports it or one of the other checks does. |
| TextAudit.TextIssuesMean | scripts/audit_public_safety.py:581-1457 | An issue is reported exactly when a block that looks at the path has it as the described issue of its first broken check, or another check yields it. |
| TextAudit.LoneClaimIsReported | scripts/audit_public_safety.py:614-618 | A handoff page that holds one unqualified claim is reported as implying a release. |
| TextAudit.TextIsSilentIff | scripts/audit_public_safety.py:581-1457 | No issue exactly when every applicable block passes every line and no other check fires. |
| TextAudit.FirstViolationIsNoLater | scripts/audit_public_safety.py:608-613 | A private-material line makes its block report its first violation, which is on that line or before it. |
| TextAudit.PrivateMaterialIsReported | scripts/audit_public_safety.py:1460-2212 | In a run over any files, an existing text file with a private-material line is named by its path rule, or by the issue of that block's first violation. |
| PathCascade.FindRule | scripts/audit_public_safety.py:1465-2204 | The search through the ordered rules ends at the first that applies. |
| PathCascade.AuditFile | scripts/audit_public_safety.py:1463-2211 | The loop body: skip, one path issue, nothing, or the text scan's issues. |
| PathCascade.AuditPaths | scripts/audit_public_safety.py:1460-2212 | The loop gives the files' issues one after the other. |
| PathCascade.SettledIffSomeRuleApplies | scripts/audit_public_safety.py:1465-2204 | A file is settled exactly when it is not skipped and some rule applies, by the earliest such rule. |
| PathCascade.OneOutcomePerFile | scripts/audit_public_safety.py:1463-2211 | A settled file gives one path issue whatever the text auditor is; other text files give exactly the text issues; the rest nothing. |
| PathCascade.ContentMattersOnlyForDocsConfig | scripts/audit_public_safety.py:2039-2049 | Content decides the path verdict only for `mkdocs.yml`, through the one rule that can fall through. |
| PathCascade.IssuesFollowThePaths | scripts/audit_public_safety.py:1460-2212 | Batches concatenate, and reordering the paths keeps the multiset of issues. |
| PathRules.AppliesMeans | scripts/audit_public_safety.py:1465-2204 | A rule applies exactly when the path has a listed part, name, suffix or ending, outside the fake workspace for two rules; the workflow rule by the first two parts, and the documentation rule by the text of `mkdocs.yml`. |
| PathRules.FileIssuesMean | scripts/audit_public_safety.py:1463-2211 | A skipped file gives nothing; else the earliest rule that wants the file gives its one issue; else readable text gives what the text auditor says, and anything else nothing. |
| PathRules.DocsConfigIsJudgedByItsText | scripts/audit_public_safety.py:2039-2049 | `mkdocs.yml` below a root of unlisted parts gives the tracking issue exactly when its text, empty if undecodable, has hosting keys; otherwise the text auditor's result, or nothing if undecodable. |
| Paths.LowerSuffixMeans | scripts/audit_public_safety.py:2205-2206 | A suffix is what follows the last dot of a name, lowered, with something on both sides of the dot. |
| UsabilityAudit.AuditTracked | scripts/audit_public_usability.py:2321-2498 | The loop's list holds exactly the findings that are due about tracked paths. |
| UsabilityAudit.AuditOne | scripts/audit_public_usability.py:2323-2498 | About one path exactly the findings whose conditions hold, at most three, in the order of the checks. |
| UsabilityAudit.FindingsAreDue | scripts/audit_public_usability.py:2321-2498 | A finding is in the specified list if and only if its path is tracked and its condition holds. |
| UsabilityAudit.FindingsMean | scripts/audit_public_usability.py:2321-2498 | Each of the four findings, said of the path: parts in lower case outside the fake workspace, endings and suffix of the name, place and reading of the file. |
| UsabilityAudit.FakeExampleIsSpared | scripts/audit_public_usability.py:2326-2327 | In the fake workspace a path without a listed ending is no generated output, whatever its parts. |
| TableFacts.GeneratedPartCovered | scripts/audit_public_usability.py:972-1097 | Every generated part is in the part table of one of three cascade rules. |
| TableFacts.GeneratedEndingCovered | scripts/audit_public_usability.py:2327-2458 | Every generated ending is in the ending table of a cascade rule without exemption. |
| TableFacts.UnsafeSuffixCovered | scripts/audit_public_usability.py:1098-1122 | Every unsafe suffix except `.log` is in the suffix table of a cascade rule. |
| TableFacts.LogSuffixUnlisted | scripts/audit_public_safety.py:1465-2206 | No rule and no text scan lists the suffix `.log`. |
| TableFacts.WorkspacePartCovered | scripts/check_private_workspace_git_safety.py:5-10 | Every private part of the git check is among the safety auditor's private parts. |
| TableFacts.WorkspaceSuffixCovered | scripts/check_private_workspace_git_safety.py:11-18 | Every private suffix of the git check is an ending of the private-workspace rule. |
| TableShapes.ListedPartsAreSmall | scripts/audit_public_safety.py:36-207 | No part that any rule of the cascade lists has a capital letter in it. |
| TableShapes.PartsOfOtherRules | scripts/audit_public_safety.py:1500-2100 | A part that a rule other than the one for private paths lists is longer than twelve characters, is not `private-workspace` or its plural, and is a private part too or one of twelve others. |
| TableShapes.EndingsAreLong | scripts/audit_public_safety.py:1497-2196 | Every listed name ending begins with a dot and is longer than six characters. |
| AuditCoverage.ReportedIffSomeRuleApplies | scripts/audit_public_safety.py:1463-2204 | A file is reported once without its text being read exactly when it is not skipped and some rule applies; a skipped file gives nothing. |
| AuditCoverage.TablesOfTheSourceAgree | scripts/audit_public_usability.py:972-1097 | The source's tables meet the agreement that coverage needs. |
| AuditCoverage.LogArtifact | scripts/audit_public_safety.py:1463-2206 | A `.log` file is reported once exactly when it is not skipped and its place or ending is listed, and otherwise gives nothing at all. |
| AuditCoverage.AgreeingTablesCover | scripts/audit_public_safety.py:1465-2204 | For any rule tables that agree: a path refused by its ending is reported once, exempt or not, and so is one outside the fake workspace with a refused part as written. |
| AuditCoverage.GeneratedOutputIsReported | scripts/audit_public_usability.py:2321-2459 | Below any root, a file failed as generated output is reported exactly once and never text-scanned if and only if it is not skipped and a rule without exemption catches it or it looks private outside the fake workspace; unless skipped, always so by its ending, by a part as written, or in lower case. |
| AuditCoverage.UnsafeArtifactIsReported | scripts/audit_public_usability.py:2460-2465 | A file failed by its suffix is reported exactly once if and only if it is not skipped and, for `.log` files, its place or ending is listed; otherwise it gives nothing. |
| AuditCoverage.FindingsAreNamed | scripts/audit_public_safety.py:1460-2212 | What a run of the usability auditor finds about a file, a run of the safety auditor over it names by a path rule, unless it skips the file or the path falls in one of the three other gaps. |
| AuditCoverage.SilenceLeavesTheGaps | scripts/audit_public_usability.py:2321-2465 | A silent safety run over a file leaves the usability run only findings of four gaps: skipped files, parts failed only in lower case, exempt paths, log files. |
| AuditCoverage.UnsafeWorkspacePathIsReported | scripts/check_private_workspace_git_safety.py:28-34 | A path the git check calls unsafe is reported exactly once if and only if it is not skipped and is outside the fake workspace or caught by another rule. |
| AuditCoverage.ExemptionSwitchesOffTwoRules | scripts/audit_public_safety.py:2100-2113 | In the fake workspace a file is settled exactly when a rule other than the two exempt ones applies. |
| CoverageGaps.QuietFileIsMissed | scripts/audit_public_safety.py:1463-2211 | A file whose name no rule fits is left to the text scan when no rule lists a part of its path, or only the exempt one does. |
| CoverageGaps.PartsWithCapitalsAreMissed | scripts/audit_public_usability.py:2324-2327 | Such a file with a capital letter in every part below a root of unlisted parts is left to the text scan. |
| CoverageGaps.SitePageIsMissed | scripts/audit_public_usability.py:2324-2327 | `Site/A.md` is failed as generated output and only text-scanned by the safety auditor. |
| CoverageGaps.LogFileIsMissed | scripts/audit_public_usability.py:2460-2465 | `A.log` is failed as an unsafe artifact and gives the safety auditor no issue at all. |
| CoverageGaps.LookAlikeIsMissed | scripts/audit_public_safety.py:2199-2204 | `examples/private-workspaces/site/A.md` is failed as generated output and only text-scanned by the safety auditor. |
| CoverageGaps.WorkspaceBelowExamplesIsMissed | scripts/check_private_workspace_git_safety.py:28-34 | Below any root of unlisted parts that ends in `examples`, the unsafe `private-workspace/A.md` is caught by no rule of the safety auditor. |
| CoverageGaps.SkippedFileIsMissed | scripts/audit_public_safety.py:1463-1464 | A path with the auditor's own file name, and a path that is no file, give no issue. |
| CoverageGaps.OwnNameIsMissed | scripts/audit_public_usability.py:2321-2459 | `site/audit_public_safety.py` is failed as generated output and gives the safety auditor no issue, below any root. |
| Exemptions.PrefixIsLeadingParts | scripts/check_private_workspace_git_safety.py:32 | The git check's string prefix means the leading parts and something below them. |
| Exemptions.UnsafeMeans | scripts/check_private_workspace_git_safety.py:28-34 | A path is unsafe exactly for a private suffix of its name, wherever it lies, or a private part when it does not lead below the fake workspace. |
| Exemptions.PrivateSuffixIsUnsafe | scripts/check_private_workspace_git_safety.py:31-33 | The fake workspace does not excuse a private suffix. |
| Exemptions.LeadingPartsAreExempt | scripts/audit_public_safety.py:2199-2204 | Paths in the fake workspace are exempt from the safety auditor below any root. |
| Exemptions.LookAlikeIsExempt | scripts/audit_public_safety.py:2201 | The substring test also exempts every path below `examples/private-workspaces`, which the usability auditor does not. |
| Exemptions.SubstringCrossesTheRoot | scripts/audit_public_safety.py:2201 | A root that ends in `examples` exempts a workspace path that the git check refuses. |
| Exemptions.WorkflowRuleNeedsRelativePaths | scripts/audit_public_safety.py:1476-1478 | Below any root, the workflow rule applies to a workflow file if and only if the root is empty or itself leads through a workflows directory. |
| AttachmentReconciler.HasIffIdentity | scripts/plan_attachments_for_intake.py:16-28 | The five-column lookup finds a row exactly when a complete row has that identity; NULLs match nothing. |
| AttachmentReconciler.Session.FindExisting | scripts/plan_attachments_for_intake.py:16-28 | The lookup succeeds exactly for the identities in the session's table. |
| AttachmentReconciler.Session.CreateManifestRecord | scripts/plan_attachments_for_intake.py:31-45 | The request is rejected exactly when a field constraint or the storage planning fails, and then nothing changes; a new identity adds one row with every column from the request; a known one refills its row, which stays downloaded if it was; the unique constraint is kept. |
| AttachmentReconciler.Session.PlanAttachmentsForIntake | scripts/plan_attachments_for_intake.py:9-48 | The loop computes the specified run; a finished run is committed, an aborted one leaves the committed table as it was. |
| AttachmentReconciler.RunIsExact | scripts/plan_attachments_for_intake.py:14-48 | Identities are the old ones united with the attachments'; created is the size of the difference and the growth of the table; old rows are untouched; uniqueness is kept. |
| AttachmentReconciler.RunIdentities | scripts/plan_attachments_for_intake.py:14-45 | The identities after a run are the old ones united with the attachments'. |
| AttachmentReconciler.RunCounts | scripts/plan_attachments_for_intake.py:12-46 | Created is the number of identities that were missing, even when attachments repeat. |
| AttachmentReconciler.RunAbortsIff | scripts/plan_attachments_for_intake.py:14-45 | A run stops before its commit exactly when an attachment it needs a row for cannot be planned. |
| AttachmentReconciler.RunFillsNeededRows | scripts/plan_attachments_for_intake.py:31-45 | Every first attachment of a missing identity fills a row. |
| AttachmentReconciler.AddedRowsAreNeeded | scripts/plan_attachments_for_intake.py:29-45 | Every row a run adds has, column by column, the values of an attachment that is the first of a missing identity, its storage plan, and the status planned. |
| AttachmentReconciler.NeededAttachmentsHaveRows | scripts/plan_attachments_for_intake.py:29-45 | Every first attachment of a missing identity could be planned and has such an added row. |
| AttachmentReconciler.SecondRunCreatesNothing | scripts/plan_attachments_for_intake.py:29-30 | A second run finishes, creates nothing and leaves the table as it is. |
| AttachmentReconciler.RunsCompose | scripts/plan_attachments_for_intake.py:14-47 | A run on xs and then one on xs and ys ends as one run on both, with the created counts adding up. |
| AttachmentReconciler.RunOfConcatenation | scripts/plan_attachments_for_intake.py:14-46 | A run over two lists in sequence is a run over the first and then over the second. |
| AttachmentReconciler.OrderKeepsIdentities | scripts/plan_attachments_for_intake.py:13-14 | Finished runs over the same attachments in different orders reach the same identities and count. |
| AttachmentReconciler.EveryOrderFinishesIff | scripts/plan_attachments_for_intake.py:13-45 | The run finishes in every order of the attachments if and only if every attachment of a missing identity can be planned. |
| AttachmentReconciler.OrderDecidesWhetherARunFinishes | scripts/plan_attachments_for_intake.py:13-45 | Two attachments with one identity, one of them not plannable: one order finishes, the other aborts. |
| AttachmentReconciler.RecordsDoNotShadow | app/models/intake_records.py:11-15 | With unique source items, attachments share an identity only within one record, and an added row names the record of its attachments. |
| StringOrder.SortedListIsUnique | scripts/audit_routes_read_only.py:90-106 | A set has exactly one sorted list, so set iteration order cannot show. |
| StringOrder.LessMeans | scripts/audit_routes_read_only.py:90-106 | Strings compare by their first difference, and a proper prefix comes first. |
| StringOrder.Sort | scripts/audit_routes_read_only.py:106 | Taking the elements in any order and inserting each yields that list. |
| RouteAudit.ApplicationRoutes | scripts/audit_routes_read_only.py:64-73 | The collected routes are the direct ones and those of wrapped routers, in order. |
| RouteAudit.ApplicationRoutesAreAllIff | scripts/audit_routes_read_only.py:64-73 | The collected routes are all routes at any depth if and only if no router is wrapped twice around a route. |
| RouteExamples.DoublyWrappedRouteIsUnseen | scripts/audit_routes_read_only.py:64-73 | A route behind a router wrapped twice is not collected. |
| RouteAudit.AuditClassification | scripts/audit_routes_read_only.py:107-158 | The first five checks append exactly the violated ones, in order. |
| RouteAudit.AuditPages | scripts/audit_routes_read_only.py:159-179 | The next three checks append exactly the violated ones, in order. |
| RouteAudit.AuditDashboard | scripts/audit_routes_read_only.py:180-192 | The two nested dashboard checks append exactly the violated ones, in order. |
| RouteAudit.AuditMethods | scripts/audit_routes_read_only.py:193-206 | The four method checks append exactly the violated ones, in order. |
| RouteAudit.AuditTerms | scripts/audit_routes_read_only.py:207-213 | The last two checks append exactly the violated ones, in order. |
| RouteAudit.AuditPair | scripts/audit_routes_read_only.py:107-213 | The checks of one route and method append exactly the violated ones, in order. |
| RouteAudit.AuditRoute | scripts/audit_routes_read_only.py:105-213 | One route is audited for its methods except HEAD and OPTIONS, in sorted order. |
| RouteAudit.AuditRoutes | scripts/audit_routes_read_only.py:76-214 | The nested loops give the missing-route issues and then the routes' issues. |
| RouteAudit.MissingForExactly | scripts/audit_routes_read_only.py:88-103 | One issue for each required path that is not available, none exactly when all are. |
| RouteAudit.ReportMissing | scripts/audit_routes_read_only.py:90-93 | The loop over a sorted difference gives the specified issues. |
| RouteAudit.ReportMissingRoutes | scripts/audit_routes_read_only.py:88-103 | The five missing-route loops in order. |
| RouteAudit.NothingMissingIff | scripts/audit_routes_read_only.py:88-103 | No missing-route issue exactly when all required GET and POST paths are available. |
| RouteAudit.RoutePassesIffAllowed | scripts/audit_routes_read_only.py:105-213 | A route passes exactly when each of its audited methods is allowed. |
| RouteAudit.PairPassesIffAllowed | scripts/audit_routes_read_only.py:107-213 | A route and method pass exactly when the policy, stated as what is allowed, allows them. |
| RouteAudit.AuditPassesIff | scripts/audit_routes_read_only.py:86-214 | The audit is silent exactly when the required paths are there and every audited route and method is allowed. |
| RouteAudit.PassingTableIsReadOnly | scripts/audit_routes_read_only.py:178-206 | A passing table has no PUT or DELETE, PATCH on one path, GET only under admin, dashboard and deployment, and under review GET plus POST on the two lifecycle paths, for every method a route names but HEAD and OPTIONS. |
| RouteExamples.RequiredTablePasses | scripts/audit_routes_read_only.py:16-61 | The required routes do not offend against the audit's own rules: a table of just these passes. |
| RouteAudit.AuditReportsViolations | scripts/audit_routes_read_only.py:104-213 | An issue is reported exactly when some route with that path is audited for that method and violates that check. |
| RouteAudit.TablesCompose | scripts/audit_routes_read_only.py:88-106 | Issues of concatenated tables concatenate; missing from both is missing from each. |
| RoutePolicy.PairIssuesMean | scripts/audit_routes_read_only.py:107-213 | A reason is reported for a path and method exactly when they earn it, each of the sixteen reasons being said of the path's text, the method and the classifications. |
| RoutePolicy.RouteIssuesAreInOrder | scripts/audit_routes_read_only.py:105-213 | The issues of one route stand in the order of the sorted methods and then of the checks. |
| RoutePolicy.RoutesReport | scripts/audit_routes_read_only.py:104-213 | A table is reported for a path, method and reason exactly when one of its routes has that path and method, not HEAD or OPTIONS, and earns the reason. |
| RoutePolicy.MissingReport | scripts/audit_routes_read_only.py:88-103 | A required path is reported as missing exactly when no route has it with its method. |
| RoutePolicy.MissingIssuesAreInOrder | scripts/audit_routes_read_only.py:90-103 | Missing routes stand in the order of the five reasons, and sorted by path within each. |
| RoutePolicy.AuditReports | scripts/audit_routes_read_only.py:76-214 | The whole audit lists exactly the earned reasons and the missing routes. |
| RoutePolicy.PassingTableNamesNothing | scripts/audit_routes_read_only.py:163-213 | No path of a passing table contains one of the eighteen mutation terms, a file term under the attachment review or the dashboard, `export` under review, or `/procore` except the two webhooks. |
| RoutePolicy.DeletePathIsReported | scripts/audit_routes_read_only.py:207-208 | The GET route `/records/{record_id}/delete` is reported as suggesting a mutation, whatever the classifiers say. |
| SyncProfileStore.Store.CreateConnection | app/routers/connections.py:28-36 | A payload that breaks no field constraint is stored as sent under the next id, which is the answer; any other is refused; nothing else changes. |
| SyncProfileStore.Store.CreateSyncProfile | app/routers/sync_profiles.py:43-74 | Performs the specified creation and keeps the store safe. |
| SyncProfileStore.Store.UpdateSyncProfile | app/routers/sync_profiles.py:81-95 | Assigns field by field, checks the sources, commits: the specified update; keeps the store safe. |
| SyncProfileStore.UpdateSetsWhatWasSent | app/routers/sync_profiles.py:87-95 | Accepted exactly for a valid payload without NULLs that leaves a source on; then the supplied fields of that profile change and nothing else; refused, the tables stay as they were. |
| SyncProfileStore.FieldOrderIsIrrelevant | app/routers/sync_profiles.py:88-90 | Payloads with the same entries in any order give the same tables and answer. |
| SyncProfileStore.NullIsWritten | app/models/sync_profiles.py:28-33 | A NULL reaches the UPDATE statement exactly when one was sent. |
| SyncProfileStore.UpdateFailsAtCommitIff | app/routers/sync_profiles.py:87-95 | An update fails at its commit exactly when it passes every check before and carries a NULL; the tables stay as they were. |
| SyncProfileStore.NullEnabledFails | app/routers/sync_profiles.py:87-95 | A NULL for `enabled` fails at the commit for every profile with a source on. |
| SyncProfileStore.CreateAddsOneProfile | app/routers/sync_profiles.py:47-74 | Created exactly when the connection exists, permits the project and has no profile for it; a conflict exactly when it has; any refusal leaves the tables as they were; an interval not sent becomes the default. |
| SyncProfileStore.FinishIsSafe | app/routers/sync_profiles.py:60-71 | A commit, even against tables that changed since the request read them, keeps unique pairs, existing connections, allowlists and valid values. |
| SyncProfileStore.AppliedReflects | app/routers/sync_profiles.py:88-90 | After the assignments every supplied field has its value and every other field the old one. |
| SyncProfileStore.SessionStaysSafe | app/routers/sync_profiles.py:87-95 | What an open request relies on stays true while others commit. |
| SyncProfileRuns.StepIsSafe | app/database.py:22-24 | Every event of any request keeps the store and all open requests safe. |
| SyncProfileRuns.Run | app/routers/sync_profiles.py:43-95 | In every state of every interleaving: one profile per connection and project, its connection exists and permits the project, stored values are valid. |
| SyncProfileRuns.NothingMoves | app/routers/connections.py:28-36 | Over any run connections, allowlists included, never change, and no profile moves. |
| SyncProfileRuns.DisjointCommitsCommute | app/routers/sync_profiles.py:87-95 | Commits that write different columns or rows can go in either order. |
| SyncProfileRuns.CommitKeepsOthersWork | app/routers/sync_profiles.py:87-95 | A commit leaves columns it did not change to others; a supplied value lands exactly when it differs from the one read or is there already. |
| SyncProfileRuns.OneCreationWins | app/models/sync_profiles.py:15-21 | Of two pending creations for one pair the second meets a conflict. |
| SyncProfileRuns.CommitKeepsSourcesIff | app/routers/sync_profiles.py:91-93 | After a commit every profile has a source if and only if the request was not overtaken. |
| SyncProfileRuns.StepKeepsSourcesIff | app/routers/sync_profiles.py:91-93 | An event keeps a source in every profile if and only if it is not the commit of an overtaken request. |
| SyncProfileRuns.SourcesAreKeptIff | app/routers/sync_profiles.py:91-93 | Over a whole run every profile has a source in every state if and only if no commit finds its request overtaken. |
| SyncProfileRuns.TurnsKeepSources | app/routers/sync_profiles.py:91-93 | When updates of one profile take turns, every profile has a source in every state. |
| SyncProfileRuns.UpToDateIsNotOvertaken | app/routers/sync_profiles.py:87-93 | A request whose copy equals the committed row is not overtaken. |
| SyncProfileRuns.TwoUpdatesLoseBothSources | app/routers/sync_profiles.py:91-93 | A concrete run of two simultaneous accepted updates that leaves a profile without a source. |
| SyncProfileRules.CreateAnswers | app/routers/sync_profiles.py:43-74 | Which of unprocessable, not found, conflict and created a creation is answered, said of its fields and the tables. |
| SyncProfileRules.UpdateAnswers | app/routers/sync_profiles.py:81-95 | Which of unprocessable, not found, commit error and accepted an update is answered, said of what it sends and the row it meets. |
| SyncProfileRules.AddingAConnection | app/routers/connections.py:28-36 | In a run, too, a valid connection is stored as sent under the next id, and nothing else changes. |
| SyncProfileRules.OpeningACreation | app/routers/sync_profiles.py:46-62 | A creation gets under way exactly when its fields are right and its connection permits the project, holding the row as sent with the interval filled in. |
| SyncProfileRules.OpeningAnUpdate | app/routers/sync_profiles.py:86-93 | An update gets under way exactly when its fields are right, its profile is there and a source will be on, holding the row it read and that row with what was sent. |
| SyncProfileRules.ClosingACreation | app/routers/sync_profiles.py:63-71 | A commit adds the row under the next id unless some row has its connection and project. |
| SyncProfileRules.ClosingAnUpdate | app/routers/sync_profiles.py:94 | A commit writes the changed columns into the row as it is by then and touches nothing else; one that sets a NULL changes nothing. |
| SyncProfileRules.EveryReachableState | app/models/sync_profiles.py:15-33 | In every state of every interleaving each pair has one profile, whose connection exists and permits it, with a proper value in every column. |
| SyncProfileRules.StoredConnectionsStay | app/routers/connections.py:28-36 | A stored connection is in every later state of the run as it was. |
| SyncProfileRules.EveryProfileSyncsIff | app/routers/sync_profiles.py:91-93 | Over a whole run every profile syncs something in every state exactly when no commit switches off the last source of its row, said of the columns read, sent and current. |
| Onboarding.EnrichFromConnection | app/routers/onboarding.py:110-147 | A request without a connection is passed through, one with an unknown connection is not found, and any other gets the specified enrichment. |
| Onboarding.EnrichForConnection | app/routers/onboarding.py:83-95 | The connection of the path overrides the payload's and is the one in the result; without a payload the default request is enriched. |
| Onboarding.EnrichmentIsExact | app/routers/onboarding.py:118-147 | No project twice, exactly the requested, permitted and profile projects, first occurrences in order; requested tools first, exactly those and the synced ones; nothing else changes. |
| Onboarding.EnrichmentMeans | app/routers/onboarding.py:118-147 | Which projects and tools an enriched request has, said of the rows of the table with this connection and their switched-on columns. |
| Onboarding.DedupKeepsFirstOccurrences | app/routers/onboarding.py:125-133 | The merge has the same elements, each once, in order of first occurrence. |
| Onboarding.DedupOfMore | app/routers/onboarding.py:125-133 | Merging a longer list extends the merge of its prefix. |
| Onboarding.MergedToolsAreExact | app/routers/onboarding.py:134-141 | The requested tools come first, then exactly the missing synced ones, RFIs before submittals, without new repeats. |
| Onboarding.EnrichingTwiceIsEnough | app/routers/onboarding.py:110-147 | Enriching an enriched request changes nothing. |
| Onboarding.MoreProfilesOnlyAdd | app/routers/onboarding.py:118-147 | More profiles extend the project list at its end and lose no tool; the exact condition under which the tool list is extended at its end. |
| Onboarding.ToolOrderCanChange | app/routers/onboarding.py:134-141 | A profile for RFIs after one for submittals puts its tool in front of the one already added. |
| Onboarding.RowOrderIsIrrelevant | app/routers/onboarding.py:118-124 | The order in which the query returns the profiles changes neither the set of projects nor the tool list. |
| Onboarding.StoredProfilesAddNoProject | app/routers/onboarding.py:125-133 | In a safe store the profiles add nothing to the requested and permitted projects. |

## Left out

- Regular expressions other than the qualifying phrases: material, claim and hosting-key expressions are arbitrary predicates.
- Unicode: case folding is ASCII lowering, word characters are ASCII, and splitting a text into lines is done before the model starts.
- The checks of `audit_text` that look at whole texts or run on without a break, and its blocks from the webhook-security block onward, several of which have the same line loop: they appear as arbitrary checks after each of the first sixteen. In the cascade the text auditor is an arbitrary function.
- Reading files, decoding, `git` calls, argument parsing, printing and exit codes; what reading a public file shows is arbitrary in the usability auditor's loop, and its documentation checks are not part of this model; neither is the `git check-ignore` half of the git check.
- The storage planning and file-name cleaning behind a manifest row are an arbitrary partial function; the reconciler's service beyond adding or refilling one row, and its printed totals, are not part of this model.
- The three route classifiers are arbitrary total functions, and FastAPI's own routes are just route tables.
- AttachmentReconciler.OrderKeepsIdentities: speaks of identities and counts, because the other columns of a row do depend on which attachment came first.
- Ids: a new row gets the next counter value; gaps that a database leaves after a rollback are not modelled. Timestamps, run state and locks of a profile, which these routes never write, are left out.
- Polling runs and every other service; deleting rows, which no route does; requests that fail halfway for reasons of the network or the database.
- SQLAlchemy, pydantic and FastAPI internals: an UPDATE is taken to write the columns whose value differs from the one that was loaded, and the schema's field constraints are predicates on payloads.
- Onboarding packets after enrichment: previews, persistence and export.
