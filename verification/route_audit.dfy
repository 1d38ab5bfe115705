/** The read-only audit of the application's routes. */
module RouteAudit {
  import opened Options
  import opened Strings
  import opened Sequences
  import opened StringOrder

  datatype Route = Route(path: string, methods: Option<set<string>>)

  // ----- The routes of the application

  /** An entry of `app.routes`: a route, something that wraps a router, or anything else. */
  datatype Candidate = Direct(route: Route) | Wrapped(routes: seq<Candidate>) | Other

  function OwnRoutes(c: Candidate): seq<Route> {
    if c.Direct? then [c.route] else []
  }

  function CandidateRoutes(c: Candidate): seq<Route> {
    match c
    case Direct(route) => [route]
    case Wrapped(inner) => FlatMap(inner, OwnRoutes)
    case Other => []
  }

  method ApplicationRoutes(candidates: seq<Candidate>) returns (routes: seq<Route>)
    ensures routes == FlatMap(candidates, CandidateRoutes)
  {
    routes := [];
    var i := 0;
    while i < |candidates|
      invariant 0 <= i <= |candidates|
      invariant routes + FlatMap(candidates[i..], CandidateRoutes) == FlatMap(candidates, CandidateRoutes)
    {
      var candidate := candidates[i];
      FlatMapStep(routes, candidates, i, CandidateRoutes);
      i := i + 1;
      if candidate.Direct? {
        routes := routes + [candidate.route];
        continue;
      }
      if candidate.Wrapped? {
        routes := routes + FlatMap(candidate.routes, OwnRoutes);
      }
    }
  }

  /** Every route that hangs below the application, at any depth. */
  function AllRoutes(candidates: seq<Candidate>): seq<Route> {
    if candidates == [] then []
    else
      (match candidates[0]
       case Direct(route) => [route]
       case Wrapped(inner) => AllRoutes(inner)
       case Other => []) + AllRoutes(candidates[1..])
  }

  /** A wrapped router inside a wrapped router holds no routes. */
  predicate HidesNothing(candidates: seq<Candidate>) {
    forall c :: c in candidates && c.Wrapped? ==>
      forall d :: d in c.routes && d.Wrapped? ==> AllRoutes(d.routes) == []
  }

  predicate DirectOnly(candidates: seq<Candidate>) {
    forall d :: d in candidates && d.Wrapped? ==> AllRoutes(d.routes) == []
  }

  lemma {:induction false} OwnRoutesAreAllIff(candidates: seq<Candidate>)
    ensures |FlatMap(candidates, OwnRoutes)| <= |AllRoutes(candidates)|
    ensures FlatMap(candidates, OwnRoutes) == AllRoutes(candidates) <==> DirectOnly(candidates)
  {
    if candidates != [] {
      var head, rest := candidates[0], candidates[1..];
      OwnRoutesAreAllIff(rest);
      var below := if head.Wrapped? then AllRoutes(head.routes) else OwnRoutes(head);
      SplitEquality(OwnRoutes(head), FlatMap(rest, OwnRoutes), below, AllRoutes(rest));
      assert forall d :: d in candidates <==> d == head || d in rest;
    }
  }

  lemma SplitEquality<T>(a: seq<T>, b: seq<T>, c: seq<T>, d: seq<T>)
    requires |a| <= |c| && |b| <= |d|
    ensures a + b == c + d <==> a == c && b == d
  {
    if a + b == c + d {
      assert |a + b| == |c + d|;
      assert (a + b)[..|a|] == a && (c + d)[..|c|] == c;
      assert (a + b)[|a|..] == b && (c + d)[|c|..] == d;
    }
  }

  /** The audit sees every route exactly when no router is wrapped twice around a route. */
  lemma {:induction false} ApplicationRoutesAreAllIff(candidates: seq<Candidate>)
    ensures |FlatMap(candidates, CandidateRoutes)| <= |AllRoutes(candidates)|
    ensures FlatMap(candidates, CandidateRoutes) == AllRoutes(candidates) <==> HidesNothing(candidates)
  {
    if candidates != [] {
      var head, rest := candidates[0], candidates[1..];
      ApplicationRoutesAreAllIff(rest);
      var below := if head.Wrapped? then AllRoutes(head.routes) else OwnRoutes(head);
      if head.Wrapped? {
        OwnRoutesAreAllIff(head.routes);
      }
      SplitEquality(CandidateRoutes(head), FlatMap(rest, CandidateRoutes), below, AllRoutes(rest));
      assert forall d :: d in candidates <==> d == head || d in rest;
    }
  }

  // ----- Classifications, which come from elsewhere and are left arbitrary

  datatype RouteClass =
    | PublicHealth | PublicReadiness | ProtectedAdmin | ProtectedDeployment | ProtectedProductDashboard
    | ProtectedReviewWorkspace | ProtectedReviewApi | ProtectedLifecycleLocalMutation
    | WebhookSignatureClass | DocsOrStaticLocal | UnknownClass

  datatype Protection =
    | IntentionallyPublic | AdminTokenRequired | WebhookSignatureProtection | ManualConfirmationRequired
    | SecretProviderRequired | PrivateWorkspaceRequired | DisabledByDefault | LocalOnly | NoNetwork | UnknownProtection

  datatype MethodRisk = SafeGet | LocalOnlyPost | WebhookPostSignature | UnsafeMutationRisk | UnknownRisk

  datatype AuthBoundary = AuthBoundary(routeClass: RouteClass, protection: Protection, risk: MethodRisk)

  /** The values of the documented fields, "unknown" where one is missing. */
  datatype Documented = Documented(routeClass: string, protection: string, risk: string)

  datatype HostedUi = HostedUi(surface: string, pageClass: string, protection: string, readiness: string)

  datatype Classifiers = Classifiers(
    authBoundary: Route -> AuthBoundary,
    document: Route -> Documented,
    hostedUi: Documented -> HostedUi)

  // ----- The path sets

  const WEBHOOK_SIGNATURE_POST_PATHS: set<string> := {"/webhooks/procore", "/webhooks/procore/dry-run"}

  const WEBHOOK_REPLAY_POST_PATHS: set<string> := {"/webhook-events/{webhook_event_id}/replay"}

  const REQUIRED_TRIAGE_GET_PATHS: set<string> := {
    "/review/triage", "/review/api/triage", "/review/api/triage/summary"
  }

  const REQUIRED_ATTACHMENT_REVIEW_GET_PATHS: set<string> := {
    "/review/attachments", "/review/attachments/{record_id}", "/review/api/attachments",
    "/review/api/attachments/summary", "/review/api/attachments/{record_id}"
  }

  const REQUIRED_PRODUCT_DASHBOARD_GET_PATHS: set<string> := {"/dashboard", "/dashboard/api/overview"}

  predicate IsLocalPatchPath(path: string) {
    path == "/sync-profiles/{sync_profile_id}"
  }

  predicate IsLocalLifecyclePostPath(path: string) {
    path in {"/review/intake/{record_id}/lifecycle", "/review/api/intake/{record_id}/lifecycle"}
  }

  predicate IsWebhookPath(path: string) {
    path in WEBHOOK_SIGNATURE_POST_PATHS
  }

  const PROHIBITED_PATH_TERMS: set<string> := {
    "approve", "assign", "calendar", "close", "comment", "compliance", "delete", "email", "notify",
    "notification", "register-webhook", "send-to-customer", "send-to-procore", "slack", "submit",
    "upload", "write-back", "writeback"
  }

  predicate IsProhibitedTerm(term: string) {
    term in PROHIBITED_PATH_TERMS
  }

  predicate IsFileTerm(term: string) {
    term in {"download", "file", "serve", "content"}
  }

  predicate IsDashboardTerm(term: string) {
    term in {"download", "export", "file", "serve"}
  }

  /** `any(term in text for term in terms)`, over the substrings of the text. */
  predicate MentionsAny(text: string, isTerm: string -> bool) {
    exists i, j :: 0 <= i <= j <= |text| && isTerm(text[i..j])
  }

  // ----- The checks on one route and method

  datatype Reason =
    | MissingWebhook | MissingReplay | MissingTriage | MissingAttachmentReview | MissingDashboard
    | UnknownApiDoc | UnknownHostedUi | WebhookOutsideSignatureBoundary | UnknownAuthBoundary | UnsafeMutation
    | WebExport | AttachmentFileServing | AdminNotGet | DashboardNotGet | DashboardFiles | ReviewNotGet
    | DeploymentNotGet | DestructiveMethod | UnapprovedPatch | SuggestsMutation | UnapprovedProcoreFacing

  datatype RouteIssue = RouteIssue(path: string, verb: string, reason: Reason)

  /** The checks in the order of the source. */
  const CHECKS: seq<Reason> := [
    UnknownApiDoc, UnknownHostedUi, WebhookOutsideSignatureBoundary, UnknownAuthBoundary, UnsafeMutation,
    WebExport, AttachmentFileServing, AdminNotGet, DashboardNotGet, DashboardFiles, ReviewNotGet,
    DeploymentNotGet, DestructiveMethod, UnapprovedPatch, SuggestsMutation, UnapprovedProcoreFacing
  ]

  predicate HasUnknown(d: Documented) {
    "unknown" in {d.routeClass, d.protection, d.risk}
  }

  predicate HasUnknownUi(h: HostedUi) {
    "unknown" in {h.surface, h.pageClass, h.protection, h.readiness}
  }

  predicate IsOutsideSignatureBoundary(path: string, boundary: AuthBoundary) {
    && IsWebhookPath(path)
    && boundary != AuthBoundary(WebhookSignatureClass, WebhookSignatureProtection, WebhookPostSignature)
  }

  predicate IsWebExport(path: string) {
    StartsWith(path, "/review") && Contains(Lower(path), "export")
  }

  predicate ServesAttachmentFiles(path: string) {
    StartsWith(path, "/review/attachments") && MentionsAny(Lower(path), IsFileTerm)
  }

  predicate IsAdmin(path: string) {
    StartsWith(path, "/admin")
  }

  predicate IsDashboard(path: string) {
    StartsWith(path, "/dashboard")
  }

  predicate IsDeployment(path: string) {
    StartsWith(path, "/deployment")
  }

  predicate IsReview(path: string) {
    StartsWith(path, "/review")
  }

  predicate IsHostedUiPath(path: string) {
    IsAdmin(path) || IsDashboard(path) || IsReview(path) || IsDeployment(path)
  }

  predicate IsProcoreFacing(path: string) {
    Contains(Lower(path), "/procore")
  }

  predicate NamesMutation(path: string) {
    MentionsAny(Lower(path), IsProhibitedTerm)
  }

  predicate NamesFiles(path: string) {
    MentionsAny(Lower(path), IsDashboardTerm)
  }

  predicate IsGet(verb: string) {
    verb == "GET"
  }

  predicate IsPost(verb: string) {
    verb == "POST"
  }

  predicate IsPatch(verb: string) {
    verb == "PATCH"
  }

  predicate IsDestructive(verb: string) {
    verb in {"DELETE", "PUT"}
  }

  predicate Violates(check: Reason, route: Route, verb: string, c: Classifiers) {
    var path := route.path;
    var boundary := c.authBoundary(route);
    match check
    case UnknownApiDoc => HasUnknown(c.document(route))
    case UnknownHostedUi => IsHostedUiPath(path) && HasUnknownUi(c.hostedUi(c.document(route)))
    case WebhookOutsideSignatureBoundary => IsOutsideSignatureBoundary(path, boundary)
    case UnknownAuthBoundary => boundary.routeClass == UnknownClass || boundary.protection == UnknownProtection
    case UnsafeMutation => boundary.risk == UnsafeMutationRisk
    case WebExport => IsWebExport(path)
    case AttachmentFileServing => ServesAttachmentFiles(path)
    case AdminNotGet => IsAdmin(path) && !IsGet(verb)
    case DashboardNotGet => IsDashboard(path) && !IsGet(verb)
    case DashboardFiles => IsDashboard(path) && NamesFiles(path)
    case ReviewNotGet => IsReview(path) && !IsGet(verb) && !(IsPost(verb) && IsLocalLifecyclePostPath(path))
    case DeploymentNotGet => IsDeployment(path) && !IsGet(verb)
    case DestructiveMethod => IsDestructive(verb)
    case UnapprovedPatch => IsPatch(verb) && !IsLocalPatchPath(path)
    case SuggestsMutation => NamesMutation(path)
    case UnapprovedProcoreFacing => IsProcoreFacing(path) && !IsWebhookPath(path)
    case _ => false
  }

  function IssueIf(check: Reason, route: Route, verb: string, c: Classifiers): seq<RouteIssue> {
    if Violates(check, route, verb, c) then [RouteIssue(route.path, verb, check)] else []
  }

  function CheckOn(route: Route, verb: string, c: Classifiers): Reason -> seq<RouteIssue> {
    check => IssueIf(check, route, verb, c)
  }

  function PairIssues(route: Route, verb: string, c: Classifiers): seq<RouteIssue> {
    FlatMap(CHECKS, CheckOn(route, verb, c))
  }

  /** The issues of the first `k` checks. */
  ghost function Upto(k: nat, route: Route, verb: string, c: Classifiers): seq<RouteIssue>
    requires k <= 16
  {
    assert |CHECKS| == 16;
    FlatMap(CHECKS[..k], CheckOn(route, verb, c))
  }

  predicate IsCheck(k: nat, check: Reason) {
    k < 16 && CHECKS[k] == check
  }

  lemma TheChecks()
    ensures IsCheck(0, UnknownApiDoc) && IsCheck(1, UnknownHostedUi) && IsCheck(2, WebhookOutsideSignatureBoundary)
    ensures IsCheck(3, UnknownAuthBoundary) && IsCheck(4, UnsafeMutation) && IsCheck(5, WebExport)
    ensures IsCheck(6, AttachmentFileServing) && IsCheck(7, AdminNotGet) && IsCheck(8, DashboardNotGet)
    ensures IsCheck(9, DashboardFiles) && IsCheck(10, ReviewNotGet) && IsCheck(11, DeploymentNotGet)
    ensures IsCheck(12, DestructiveMethod) && IsCheck(13, UnapprovedPatch) && IsCheck(14, SuggestsMutation)
    ensures IsCheck(15, UnapprovedProcoreFacing)
  {
  }

  lemma NextCheck(k: nat, check: Reason, route: Route, verb: string, c: Classifiers)
    requires IsCheck(k, check)
    ensures Upto(k + 1, route, verb, c)
         == if Violates(check, route, verb, c) then Upto(k, route, verb, c) + [RouteIssue(route.path, verb, check)]
            else Upto(k, route, verb, c)
  {
    assert CHECKS[..k + 1] == CHECKS[..k] + [check];
    FlatMapConcat(CHECKS[..k], [check], CheckOn(route, verb, c));
    FlatMapSingle(check, CheckOn(route, verb, c));
  }

  lemma AllChecks(route: Route, verb: string, c: Classifiers)
    ensures Upto(0, route, verb, c) == [] && Upto(16, route, verb, c) == PairIssues(route, verb, c)
  {
    assert CHECKS[..|CHECKS|] == CHECKS;
  }

  /** The classifications of the route. */
  method AuditClassification(route: Route, verb: string, c: Classifiers, before: seq<RouteIssue>)
    returns (issues: seq<RouteIssue>)
    requires before == Upto(0, route, verb, c)
    ensures issues == Upto(5, route, verb, c)
  {
    hide Upto, IsCheck, HasUnknown, HasUnknownUi, IsHostedUiPath, IsOutsideSignatureBoundary;
    TheChecks();
    var path := route.path;
    var classified := c.authBoundary(route);
    var documented := c.document(route);
    issues := before;
    if HasUnknown(documented) {
      issues := issues + [RouteIssue(path, verb, UnknownApiDoc)];
    }
    NextCheck(0, UnknownApiDoc, route, verb, c);
    if IsHostedUiPath(path) {
      if HasUnknownUi(c.hostedUi(documented)) {
        issues := issues + [RouteIssue(path, verb, UnknownHostedUi)];
      }
    }
    NextCheck(1, UnknownHostedUi, route, verb, c);
    if IsOutsideSignatureBoundary(path, classified) {
      issues := issues + [RouteIssue(path, verb, WebhookOutsideSignatureBoundary)];
    }
    NextCheck(2, WebhookOutsideSignatureBoundary, route, verb, c);
    if classified.routeClass == UnknownClass || classified.protection == UnknownProtection {
      issues := issues + [RouteIssue(path, verb, UnknownAuthBoundary)];
    }
    NextCheck(3, UnknownAuthBoundary, route, verb, c);
    if classified.risk == UnsafeMutationRisk {
      issues := issues + [RouteIssue(path, verb, UnsafeMutation)];
    }
    NextCheck(4, UnsafeMutation, route, verb, c);
  }

  /** Files on review pages, and the admin pages. */
  method AuditPages(route: Route, verb: string, c: Classifiers, before: seq<RouteIssue>)
    returns (issues: seq<RouteIssue>)
    requires before == Upto(5, route, verb, c)
    ensures issues == Upto(8, route, verb, c)
  {
    hide Upto, IsCheck, IsWebExport, ServesAttachmentFiles, IsAdmin, IsGet;
    TheChecks();
    var path := route.path;
    issues := before;
    if IsWebExport(path) {
      issues := issues + [RouteIssue(path, verb, WebExport)];
    }
    NextCheck(5, WebExport, route, verb, c);
    if ServesAttachmentFiles(path) {
      issues := issues + [RouteIssue(path, verb, AttachmentFileServing)];
    }
    NextCheck(6, AttachmentFileServing, route, verb, c);
    if IsAdmin(path) && !IsGet(verb) {
      issues := issues + [RouteIssue(path, verb, AdminNotGet)];
    }
    NextCheck(7, AdminNotGet, route, verb, c);
  }

  /** The dashboard pages. */
  method AuditDashboard(route: Route, verb: string, c: Classifiers, before: seq<RouteIssue>)
    returns (issues: seq<RouteIssue>)
    requires before == Upto(8, route, verb, c)
    ensures issues == Upto(10, route, verb, c)
  {
    hide Upto, IsCheck, IsDashboard, NamesFiles, IsGet;
    TheChecks();
    var path := route.path;
    issues := before;
    if IsDashboard(path) {
      if !IsGet(verb) {
        issues := issues + [RouteIssue(path, verb, DashboardNotGet)];
      }
      if NamesFiles(path) {
        issues := issues + [RouteIssue(path, verb, DashboardFiles)];
      }
    }
    NextCheck(8, DashboardNotGet, route, verb, c);
    NextCheck(9, DashboardFiles, route, verb, c);
  }

  /** What methods are allowed where. */
  method AuditMethods(route: Route, verb: string, c: Classifiers, before: seq<RouteIssue>)
    returns (issues: seq<RouteIssue>)
    requires before == Upto(10, route, verb, c)
    ensures issues == Upto(14, route, verb, c)
  {
    hide Upto, IsCheck, IsReview, IsDeployment, IsGet, IsPost, IsPatch, IsDestructive;
    hide IsLocalPatchPath, IsLocalLifecyclePostPath;
    TheChecks();
    var path := route.path;
    issues := before;
    if IsReview(path) && !IsGet(verb) && !(IsPost(verb) && IsLocalLifecyclePostPath(path)) {
      issues := issues + [RouteIssue(path, verb, ReviewNotGet)];
    }
    NextCheck(10, ReviewNotGet, route, verb, c);
    if IsDeployment(path) && !IsGet(verb) {
      issues := issues + [RouteIssue(path, verb, DeploymentNotGet)];
    }
    NextCheck(11, DeploymentNotGet, route, verb, c);
    if IsDestructive(verb) {
      issues := issues + [RouteIssue(path, verb, DestructiveMethod)];
    }
    NextCheck(12, DestructiveMethod, route, verb, c);
    if IsPatch(verb) && !IsLocalPatchPath(path) {
      issues := issues + [RouteIssue(path, verb, UnapprovedPatch)];
    }
    NextCheck(13, UnapprovedPatch, route, verb, c);
  }

  /** What the path says. */
  method AuditTerms(route: Route, verb: string, c: Classifiers, before: seq<RouteIssue>)
    returns (issues: seq<RouteIssue>)
    requires before == Upto(14, route, verb, c)
    ensures issues == Upto(16, route, verb, c)
  {
    hide Upto, IsCheck, IsProcoreFacing, NamesMutation, IsWebhookPath;
    TheChecks();
    var path := route.path;
    issues := before;
    if NamesMutation(path) {
      issues := issues + [RouteIssue(path, verb, SuggestsMutation)];
    }
    NextCheck(14, SuggestsMutation, route, verb, c);
    if IsProcoreFacing(path) && !IsWebhookPath(path) {
      issues := issues + [RouteIssue(path, verb, UnapprovedProcoreFacing)];
    }
    NextCheck(15, UnapprovedProcoreFacing, route, verb, c);
  }

  /** The body of the inner loop. */
  method AuditPair(route: Route, verb: string, c: Classifiers) returns (issues: seq<RouteIssue>)
    ensures issues == PairIssues(route, verb, c)
  {
    AllChecks(route, verb, c);
    issues := AuditClassification(route, verb, c, []);
    issues := AuditPages(route, verb, c, issues);
    issues := AuditDashboard(route, verb, c, issues);
    issues := AuditMethods(route, verb, c, issues);
    issues := AuditTerms(route, verb, c, issues);
  }

  // ----- The whole audit

  function Verbs(route: Route): set<string> {
    if route.methods.Some? then route.methods.value else {}
  }

  function AuditedVerbs(route: Route): set<string> {
    Verbs(route) - {"HEAD", "OPTIONS"}
  }

  function Available(routes: seq<Route>, verb: string): set<string> {
    set route | route in routes && verb in Verbs(route) :: route.path
  }

  function AsMissing(verb: string, reason: Reason): string -> seq<RouteIssue> {
    path => [RouteIssue(path, verb, reason)]
  }

  ghost function MissingFor(
    required: set<string>, available: set<string>, verb: string, reason: Reason): seq<RouteIssue>
  {
    FlatMap(Sorted(required - available), AsMissing(verb, reason))
  }

  ghost function MissingIssues(routes: seq<Route>): seq<RouteIssue> {
    MissingFor(WEBHOOK_SIGNATURE_POST_PATHS, Available(routes, "POST"), "POST", MissingWebhook)
    + MissingFor(WEBHOOK_REPLAY_POST_PATHS, Available(routes, "POST"), "POST", MissingReplay)
    + MissingFor(REQUIRED_TRIAGE_GET_PATHS, Available(routes, "GET"), "GET", MissingTriage)
    + MissingFor(REQUIRED_ATTACHMENT_REVIEW_GET_PATHS, Available(routes, "GET"), "GET", MissingAttachmentReview)
    + MissingFor(REQUIRED_PRODUCT_DASHBOARD_GET_PATHS, Available(routes, "GET"), "GET", MissingDashboard)
  }

  function VerbIssues(route: Route, c: Classifiers): string -> seq<RouteIssue> {
    verb => PairIssues(route, verb, c)
  }

  ghost function RouteIssues(c: Classifiers): Route -> seq<RouteIssue> {
    route => FlatMap(Sorted(AuditedVerbs(route)), VerbIssues(route, c))
  }

  /** What the audit reports, with nothing left to the order in which sets are iterated. */
  ghost function AllIssues(routes: seq<Route>, c: Classifiers): seq<RouteIssue> {
    MissingIssues(routes) + FlatMap(routes, RouteIssues(c))
  }

  method ReportMissing(required: set<string>, available: set<string>, verb: string, reason: Reason)
    returns (issues: seq<RouteIssue>)
    ensures issues == MissingFor(required, available, verb, reason)
  {
    issues := [];
    var missing := Sort(required - available);
    var i := 0;
    while i < |missing|
      invariant 0 <= i <= |missing|
      invariant issues + FlatMap(missing[i..], AsMissing(verb, reason)) == FlatMap(missing, AsMissing(verb, reason))
    {
      FlatMapStep(issues, missing, i, AsMissing(verb, reason));
      issues := issues + [RouteIssue(missing[i], verb, reason)];
      i := i + 1;
    }
  }

  method AuditRoute(route: Route, c: Classifiers) returns (issues: seq<RouteIssue>)
    ensures issues == FlatMap(Sorted(AuditedVerbs(route)), VerbIssues(route, c))
  {
    issues := [];
    var verbs := Sort(AuditedVerbs(route));
    var i := 0;
    while i < |verbs|
      invariant 0 <= i <= |verbs|
      invariant issues + FlatMap(verbs[i..], VerbIssues(route, c)) == FlatMap(verbs, VerbIssues(route, c))
    {
      FlatMapStep(issues, verbs, i, VerbIssues(route, c));
      var found := AuditPair(route, verbs[i], c);
      issues := issues + found;
      i := i + 1;
    }
  }

  method ReportMissingRoutes(routes: seq<Route>) returns (issues: seq<RouteIssue>)
    ensures issues == MissingIssues(routes)
  {
    var gets := Available(routes, "GET");
    var posts := Available(routes, "POST");
    var webhooks := ReportMissing(WEBHOOK_SIGNATURE_POST_PATHS, posts, "POST", MissingWebhook);
    var replays := ReportMissing(WEBHOOK_REPLAY_POST_PATHS, posts, "POST", MissingReplay);
    var triage := ReportMissing(REQUIRED_TRIAGE_GET_PATHS, gets, "GET", MissingTriage);
    var attachments := ReportMissing(REQUIRED_ATTACHMENT_REVIEW_GET_PATHS, gets, "GET", MissingAttachmentReview);
    var dashboard := ReportMissing(REQUIRED_PRODUCT_DASHBOARD_GET_PATHS, gets, "GET", MissingDashboard);
    issues := webhooks + replays + triage + attachments + dashboard;
  }

  method AuditRoutes(candidates: seq<Candidate>, c: Classifiers) returns (issues: seq<RouteIssue>)
    ensures issues == AllIssues(FlatMap(candidates, CandidateRoutes), c)
  {
    var routes := ApplicationRoutes(candidates);
    issues := ReportMissingRoutes(routes);
    var i := 0;
    while i < |routes|
      invariant 0 <= i <= |routes|
      invariant issues + FlatMap(routes[i..], RouteIssues(c)) == AllIssues(routes, c)
    {
      FlatMapStep(issues, routes, i, RouteIssues(c));
      var found := AuditRoute(routes[i], c);
      issues := issues + found;
      i := i + 1;
    }
  }

  // ----- Soundness and completeness

  // The policy on one route and method, stated as what is allowed.

  predicate IsClassified(route: Route, c: Classifiers) {
    var boundary := c.authBoundary(route);
    && !HasUnknown(c.document(route))
    && (IsHostedUiPath(route.path) ==> !HasUnknownUi(c.hostedUi(c.document(route))))
    && boundary.routeClass != UnknownClass && boundary.protection != UnknownProtection
    && boundary.risk != UnsafeMutationRisk
    && (IsWebhookPath(route.path) ==>
      boundary == AuthBoundary(WebhookSignatureClass, WebhookSignatureProtection, WebhookPostSignature))
  }

  predicate IsReadOnly(path: string, verb: string) {
    && !IsDestructive(verb)
    && (IsPatch(verb) ==> IsLocalPatchPath(path))
    && (IsAdmin(path) || IsDeployment(path) || IsDashboard(path) ==> IsGet(verb))
    && (IsReview(path) ==> IsGet(verb) || (IsPost(verb) && IsLocalLifecyclePostPath(path)))
  }

  predicate IsFileFree(path: string) {
    && !IsWebExport(path) && !ServesAttachmentFiles(path)
    && (IsDashboard(path) ==> !NamesFiles(path))
  }

  predicate IsMutationFree(path: string) {
    && !NamesMutation(path)
    && (IsProcoreFacing(path) ==> IsWebhookPath(path))
  }

  predicate IsAllowed(route: Route, verb: string, c: Classifiers) {
    IsClassified(route, c) && IsReadOnly(route.path, verb) && IsFileFree(route.path) && IsMutationFree(route.path)
  }

  lemma ClassifiedIff(route: Route, verb: string, c: Classifiers)
    ensures IsClassified(route, c) == (
      && !Violates(UnknownApiDoc, route, verb, c) && !Violates(UnknownHostedUi, route, verb, c)
      && !Violates(WebhookOutsideSignatureBoundary, route, verb, c)
      && !Violates(UnknownAuthBoundary, route, verb, c) && !Violates(UnsafeMutation, route, verb, c))
  {
  }

  lemma ReadOnlyIff(route: Route, verb: string, c: Classifiers)
    ensures IsReadOnly(route.path, verb) == (
      && !Violates(AdminNotGet, route, verb, c) && !Violates(DashboardNotGet, route, verb, c)
      && !Violates(ReviewNotGet, route, verb, c) && !Violates(DeploymentNotGet, route, verb, c)
      && !Violates(DestructiveMethod, route, verb, c) && !Violates(UnapprovedPatch, route, verb, c))
  {
  }

  lemma FileFreeIff(route: Route, verb: string, c: Classifiers)
    ensures IsFileFree(route.path) <==>
      && !Violates(WebExport, route, verb, c) && !Violates(AttachmentFileServing, route, verb, c)
      && !Violates(DashboardFiles, route, verb, c)
  {
  }

  lemma MutationFreeIff(route: Route, verb: string, c: Classifiers)
    ensures IsMutationFree(route.path) <==>
      !Violates(SuggestsMutation, route, verb, c) && !Violates(UnapprovedProcoreFacing, route, verb, c)
  {
  }

  lemma AllowedForbids(check: Reason, route: Route, verb: string, c: Classifiers)
    requires IsAllowed(route, verb, c)
    ensures !Violates(check, route, verb, c)
  {
    match check
    case UnknownApiDoc | UnknownHostedUi | WebhookOutsideSignatureBoundary | UnknownAuthBoundary | UnsafeMutation =>
      ClassifiedIff(route, verb, c);
    case AdminNotGet | DashboardNotGet | ReviewNotGet | DeploymentNotGet | DestructiveMethod | UnapprovedPatch =>
      ReadOnlyIff(route, verb, c);
    case WebExport | AttachmentFileServing | DashboardFiles => FileFreeIff(route, verb, c);
    case SuggestsMutation | UnapprovedProcoreFacing => MutationFreeIff(route, verb, c);
    case _ =>
  }

  predicate IsRouteCheck(check: Reason) {
    check !in {MissingWebhook, MissingReplay, MissingTriage, MissingAttachmentReview, MissingDashboard}
  }

  lemma CheckListed(check: Reason)
    ensures check in CHECKS <==> IsRouteCheck(check)
  {
    match check
    case UnknownApiDoc => assert CHECKS[0] == check;
    case UnknownHostedUi => assert CHECKS[1] == check;
    case WebhookOutsideSignatureBoundary => assert CHECKS[2] == check;
    case UnknownAuthBoundary => assert CHECKS[3] == check;
    case UnsafeMutation => assert CHECKS[4] == check;
    case WebExport => assert CHECKS[5] == check;
    case AttachmentFileServing => assert CHECKS[6] == check;
    case AdminNotGet => assert CHECKS[7] == check;
    case DashboardNotGet => assert CHECKS[8] == check;
    case DashboardFiles => assert CHECKS[9] == check;
    case ReviewNotGet => assert CHECKS[10] == check;
    case DeploymentNotGet => assert CHECKS[11] == check;
    case DestructiveMethod => assert CHECKS[12] == check;
    case UnapprovedPatch => assert CHECKS[13] == check;
    case SuggestsMutation => assert CHECKS[14] == check;
    case UnapprovedProcoreFacing => assert CHECKS[15] == check;
    case _ =>
  }

  lemma AllowedIfNoViolation(route: Route, verb: string, c: Classifiers)
    requires forall check :: check in CHECKS ==> !Violates(check, route, verb, c)
    ensures IsAllowed(route, verb, c)
  {
    forall check | IsRouteCheck(check) ensures !Violates(check, route, verb, c) {
      CheckListed(check);
    }
    ClassifiedIff(route, verb, c);
    ReadOnlyIff(route, verb, c);
    FileFreeIff(route, verb, c);
    MutationFreeIff(route, verb, c);
  }

  lemma PairPassesIffAllowed(route: Route, verb: string, c: Classifiers)
    ensures PairIssues(route, verb, c) == [] <==> IsAllowed(route, verb, c)
  {
    FlatMapEmpty(CHECKS, CheckOn(route, verb, c));
    if IsAllowed(route, verb, c) {
      forall check | check in CHECKS ensures CheckOn(route, verb, c)(check) == [] {
        AllowedForbids(check, route, verb, c);
      }
    }
    if PairIssues(route, verb, c) == [] {
      forall check | check in CHECKS ensures !Violates(check, route, verb, c) {
        assert CheckOn(route, verb, c)(check) == [];
      }
      AllowedIfNoViolation(route, verb, c);
    }
  }

  lemma MissingForExactly(required: set<string>, available: set<string>, verb: string, reason: Reason)
    ensures MissingFor(required, available, verb, reason) == [] <==> required <= available
    ensures forall issue: RouteIssue :: issue in MissingFor(required, available, verb, reason) <==>
      issue.path in required - available && issue.verb == verb && issue.reason == reason
    ensures |MissingFor(required, available, verb, reason)| == |Sorted(required - available)|
  {
    var missing := Sorted(required - available);
    FlatMapContains(missing, AsMissing(verb, reason));
    FlatMapEmpty(missing, AsMissing(verb, reason));
    OneEach(missing, verb, reason);
    forall issue: RouteIssue | issue.path in required - available && issue.verb == verb && issue.reason == reason
      ensures issue in MissingFor(required, available, verb, reason)
    {
      assert issue.path in missing && issue in AsMissing(verb, reason)(issue.path);
    }
    if MissingFor(required, available, verb, reason) == [] {
      forall path | path in required ensures path in available {
        assert AsMissing(verb, reason)(path) != [];
        assert path in required - available ==> path in missing;
      }
    }
  }

  lemma {:induction false} OneEach(paths: seq<string>, verb: string, reason: Reason)
    ensures |FlatMap(paths, AsMissing(verb, reason))| == |paths|
  {
    if paths != [] {
      OneEach(paths[1..], verb, reason);
    }
  }

  predicate RequiredPresent(routes: seq<Route>) {
    && WEBHOOK_SIGNATURE_POST_PATHS + WEBHOOK_REPLAY_POST_PATHS <= Available(routes, "POST")
    && REQUIRED_TRIAGE_GET_PATHS + REQUIRED_ATTACHMENT_REVIEW_GET_PATHS + REQUIRED_PRODUCT_DASHBOARD_GET_PATHS
      <= Available(routes, "GET")
  }

  lemma NothingMissingIff(routes: seq<Route>)
    ensures MissingIssues(routes) == [] <==> RequiredPresent(routes)
  {
    var posts, gets := Available(routes, "POST"), Available(routes, "GET");
    MissingForExactly(WEBHOOK_SIGNATURE_POST_PATHS, posts, "POST", MissingWebhook);
    MissingForExactly(WEBHOOK_REPLAY_POST_PATHS, posts, "POST", MissingReplay);
    MissingForExactly(REQUIRED_TRIAGE_GET_PATHS, gets, "GET", MissingTriage);
    MissingForExactly(REQUIRED_ATTACHMENT_REVIEW_GET_PATHS, gets, "GET", MissingAttachmentReview);
    MissingForExactly(REQUIRED_PRODUCT_DASHBOARD_GET_PATHS, gets, "GET", MissingDashboard);
  }

  predicate RouteIsAllowed(route: Route, c: Classifiers) {
    forall verb :: verb in AuditedVerbs(route) ==> IsAllowed(route, verb, c)
  }

  lemma RoutePassesIffAllowed(route: Route, c: Classifiers)
    ensures RouteIssues(c)(route) == [] <==> RouteIsAllowed(route, c)
  {
    var verbs := Sorted(AuditedVerbs(route));
    FlatMapEmpty(verbs, VerbIssues(route, c));
    forall verb ensures VerbIssues(route, c)(verb) == [] <==> IsAllowed(route, verb, c) {
      PairPassesIffAllowed(route, verb, c);
    }
  }

  /** Sound and complete: the audit is silent exactly when every required path is there and every
      route allows every method it is audited for. */
  lemma AuditPassesIff(routes: seq<Route>, c: Classifiers)
    ensures AllIssues(routes, c) == [] <==>
      RequiredPresent(routes) && forall route :: route in routes ==> RouteIsAllowed(route, c)
  {
    NothingMissingIff(routes);
    FlatMapEmpty(routes, RouteIssues(c));
    forall route ensures RouteIssues(c)(route) == [] <==> RouteIsAllowed(route, c) {
      RoutePassesIffAllowed(route, c);
    }
  }

  lemma ReadOnlyMeans(path: string, verb: string)
    requires IsReadOnly(path, verb)
    ensures verb != "PUT" && verb != "DELETE"
    ensures verb == "PATCH" ==> path == "/sync-profiles/{sync_profile_id}"
    ensures StartsWith(path, "/admin") || StartsWith(path, "/dashboard") || StartsWith(path, "/deployment")
      ==> verb == "GET"
    ensures StartsWith(path, "/review") && verb != "GET" ==> verb == "POST" && IsLocalLifecyclePostPath(path)
  {
  }

  lemma PassingRouteIsAllowed(routes: seq<Route>, c: Classifiers, route: Route, verb: string)
    requires AllIssues(routes, c) == [] && route in routes && verb in AuditedVerbs(route)
    ensures IsReadOnly(route.path, verb)
  {
    AuditPassesIff(routes, c);
    assert RouteIsAllowed(route, c);
    assert IsAllowed(route, verb, c);
  }

  /** What a passing table promises about methods, whatever the classifiers say. */
  lemma PassingTableIsReadOnly(routes: seq<Route>, c: Classifiers, route: Route, verb: string)
    requires AllIssues(routes, c) == [] && route in routes
    requires route.methods.Some? && verb in route.methods.value && verb !in {"HEAD", "OPTIONS"}
    ensures verb != "PUT" && verb != "DELETE"
    ensures verb == "PATCH" ==> route.path == "/sync-profiles/{sync_profile_id}"
    ensures "/admin" <= route.path || "/dashboard" <= route.path || "/deployment" <= route.path ==> verb == "GET"
    ensures "/review" <= route.path && verb != "GET" ==>
              verb == "POST" && (route.path == "/review/intake/{record_id}/lifecycle"
                                 || route.path == "/review/api/intake/{record_id}/lifecycle")
  {
    hide StartsWith;
    PassingRouteIsAllowed(routes, c, route, verb);
    ReadOnlyMeans(route.path, verb);
    StartsWithMeans(route.path, "/admin");
    StartsWithMeans(route.path, "/dashboard");
    StartsWithMeans(route.path, "/deployment");
    StartsWithMeans(route.path, "/review");
  }

  /** Issues that name the check they come from. */
  lemma ChecksContain(checks: seq<Reason>, emit: Reason -> seq<RouteIssue>, violates: Reason -> bool,
                      path: string, verb: string, issue: RouteIssue)
    requires forall check :: emit(check) == if violates(check) then [RouteIssue(path, verb, check)] else []
    ensures issue in FlatMap(checks, emit) <==>
      issue.path == path && issue.verb == verb && issue.reason in checks && violates(issue.reason)
  {
    FlatMapContains(checks, emit);
    if issue.path == path && issue.verb == verb && issue.reason in checks && violates(issue.reason) {
      assert issue in emit(issue.reason);
    }
  }

  lemma PairIssuesAre(route: Route, verb: string, c: Classifiers, issue: RouteIssue)
    ensures issue in VerbIssues(route, c)(verb) <==>
      && issue.path == route.path && issue.verb == verb
      && IsRouteCheck(issue.reason) && Violates(issue.reason, route, verb, c)
  {
    CheckListed(issue.reason);
    ChecksContain(CHECKS, CheckOn(route, verb, c), check => Violates(check, route, verb, c), route.path, verb, issue);
  }

  lemma VerbsContain(verbs: set<string>, emit: string -> seq<RouteIssue>, violates: (Reason, string) -> bool,
                     path: string, issue: RouteIssue)
    requires forall verb :: issue in emit(verb) <==>
      issue.path == path && issue.verb == verb && violates(issue.reason, verb)
    ensures issue in FlatMap(Sorted(verbs), emit) <==>
      issue.path == path && issue.verb in verbs && violates(issue.reason, issue.verb)
  {
    FlatMapContains(Sorted(verbs), emit);
    assert issue.verb in Sorted(verbs) <==> issue.verb in verbs;
  }

  lemma RouteIssuesAre(route: Route, c: Classifiers, issue: RouteIssue)
    ensures issue in RouteIssues(c)(route) <==>
      issue.path == route.path && issue.verb in AuditedVerbs(route)
      && IsRouteCheck(issue.reason) && Violates(issue.reason, route, issue.verb, c)
  {
    forall verb ensures issue in VerbIssues(route, c)(verb) <==>
      && issue.path == route.path && issue.verb == verb
      && IsRouteCheck(issue.reason) && Violates(issue.reason, route, verb, c)
    {
      PairIssuesAre(route, verb, c, issue);
    }
    VerbsContain(AuditedVerbs(route), VerbIssues(route, c),
      (check, verb) => IsRouteCheck(check) && Violates(check, route, verb, c), route.path, issue);
  }

  ghost predicate Offends(route: Route, c: Classifiers, issue: RouteIssue) {
    && issue.path == route.path && issue.verb in AuditedVerbs(route)
    && IsRouteCheck(issue.reason) && Violates(issue.reason, route, issue.verb, c)
  }

  /** The audit reports a check against a path and method exactly when some route of the table with
      that path is audited for that method and violates that check. */
  lemma AuditReportsViolations(routes: seq<Route>, c: Classifiers, issue: RouteIssue)
    ensures issue in FlatMap(routes, RouteIssues(c)) <==>
      exists route :: route in routes && Offends(route, c, issue)
  {
    FlatMapContains(routes, RouteIssues(c));
    forall route ensures issue in RouteIssues(c)(route) <==> Offends(route, c, issue) {
      RouteIssuesAre(route, c, issue);
    }
  }

  /** Tables compose: the issues of two tables' routes follow each other, and what is missing from
      both together is what neither has. */
  lemma TablesCompose(a: seq<Route>, b: seq<Route>, c: Classifiers, required: set<string>, verb: string, reason: Reason)
    ensures FlatMap(a + b, RouteIssues(c)) == FlatMap(a, RouteIssues(c)) + FlatMap(b, RouteIssues(c))
    ensures Available(a + b, verb) == Available(a, verb) + Available(b, verb)
    ensures forall issue :: issue in MissingFor(required, Available(a + b, verb), verb, reason) <==>
      issue in MissingFor(required, Available(a, verb), verb, reason)
      && issue in MissingFor(required, Available(b, verb), verb, reason)
  {
    FlatMapConcat(a, b, RouteIssues(c));
    assert forall route :: route in a + b <==> route in a || route in b;
    assert Available(a + b, verb) == Available(a, verb) + Available(b, verb);
    MissingForExactly(required, Available(a + b, verb), verb, reason);
    MissingForExactly(required, Available(a, verb), verb, reason);
    MissingForExactly(required, Available(b, verb), verb, reason);
  }
}
