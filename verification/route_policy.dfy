/** What the route auditor's checks mean, said of the text of a path, the method and the
    classifications, and what the audit reports in those terms: the reference for its loops. */
module RoutePolicy {
  import opened Options
  import opened Strings
  import opened Sequences
  import opened StringOrder
  import opened RouteAudit

  predicate Mentions(path: string, term: string) {
    Contains(Lower(path), term)
  }

  predicate ReceivesWebhooks(path: string) {
    path == "/webhooks/procore" || path == "/webhooks/procore/dry-run"
  }

  predicate ChangesLifecycle(path: string) {
    path == "/review/intake/{record_id}/lifecycle" || path == "/review/api/intake/{record_id}/lifecycle"
  }

  predicate HasPage(path: string) {
    "/admin" <= path || "/dashboard" <= path || "/review" <= path || "/deployment" <= path
  }

  /** When a path and method of the table earn a reason. */
  ghost predicate Earns(reason: Reason, route: Route, verb: string, c: Classifiers) {
    var path, d, b := route.path, c.document(route), c.authBoundary(route);
    match reason
    case UnknownApiDoc => d.routeClass == "unknown" || d.protection == "unknown" || d.risk == "unknown"
    case UnknownHostedUi =>
      var h := c.hostedUi(d);
      HasPage(path) &&
      (h.surface == "unknown" || h.pageClass == "unknown" || h.protection == "unknown" || h.readiness == "unknown")
    case WebhookOutsideSignatureBoundary =>
      ReceivesWebhooks(path) &&
      (b.routeClass != WebhookSignatureClass || b.protection != WebhookSignatureProtection
       || b.risk != WebhookPostSignature)
    case UnknownAuthBoundary => b.routeClass == UnknownClass || b.protection == UnknownProtection
    case UnsafeMutation => b.risk == UnsafeMutationRisk
    case WebExport => "/review" <= path && Mentions(path, "export")
    case AttachmentFileServing =>
      "/review/attachments" <= path &&
      (Mentions(path, "download") || Mentions(path, "file") || Mentions(path, "serve") || Mentions(path, "content"))
    case AdminNotGet => "/admin" <= path && verb != "GET"
    case DashboardNotGet => "/dashboard" <= path && verb != "GET"
    case DashboardFiles =>
      "/dashboard" <= path &&
      (Mentions(path, "download") || Mentions(path, "export") || Mentions(path, "file") || Mentions(path, "serve"))
    case ReviewNotGet => "/review" <= path && verb != "GET" && (verb == "POST" ==> !ChangesLifecycle(path))
    case DeploymentNotGet => "/deployment" <= path && verb != "GET"
    case DestructiveMethod => verb == "DELETE" || verb == "PUT"
    case UnapprovedPatch => verb == "PATCH" && path != "/sync-profiles/{sync_profile_id}"
    case SuggestsMutation => exists term :: term in PROHIBITED_PATH_TERMS && Mentions(path, term)
    case UnapprovedProcoreFacing => Mentions(path, "/procore") && !ReceivesWebhooks(path)
    case _ => false
  }

  lemma MentionsAnyMeans(text: string, isTerm: string -> bool)
    ensures MentionsAny(text, isTerm) <==> exists term :: isTerm(term) && Contains(text, term)
  {
    if i, j :| 0 <= i <= j <= |text| && isTerm(text[i..j]) {
      assert OccursAt(text[i..j], text, i);
    }
    if term :| isTerm(term) && Contains(text, term) {
      var i :| 0 <= i <= |text| && OccursAt(term, text, i);
      assert text[i..i + |term|] == term;
    }
  }

  lemma SurfacesMean(path: string)
    ensures IsAdmin(path) == ("/admin" <= path) && IsDashboard(path) == ("/dashboard" <= path)
    ensures IsReview(path) == ("/review" <= path) && IsDeployment(path) == ("/deployment" <= path)
    ensures StartsWith(path, "/review/attachments") == ("/review/attachments" <= path)
    ensures IsHostedUiPath(path) == HasPage(path)
  {
    StartsWithMeans(path, "/admin");
    StartsWithMeans(path, "/dashboard");
    StartsWithMeans(path, "/review");
    StartsWithMeans(path, "/deployment");
    StartsWithMeans(path, "/review/attachments");
  }

  lemma ClassificationMeans(reason: Reason, route: Route, verb: string, c: Classifiers)
    requires reason in {
      UnknownApiDoc, UnknownHostedUi, WebhookOutsideSignatureBoundary, UnknownAuthBoundary, UnsafeMutation}
    ensures Violates(reason, route, verb, c) <==> Earns(reason, route, verb, c)
  {
    hide IsHostedUiPath, HasPage;
    SurfacesMean(route.path);
  }

  lemma MethodsMean(reason: Reason, route: Route, verb: string, c: Classifiers)
    requires reason in {
      AdminNotGet, DashboardNotGet, ReviewNotGet, DeploymentNotGet, DestructiveMethod, UnapprovedPatch}
    ensures Violates(reason, route, verb, c) <==> Earns(reason, route, verb, c)
  {
    hide IsAdmin, IsDashboard, IsReview, IsDeployment;
    SurfacesMean(route.path);
  }

  lemma FileTermsMean(path: string)
    ensures MentionsAny(Lower(path), IsFileTerm) <==>
      Mentions(path, "download") || Mentions(path, "file") || Mentions(path, "serve") || Mentions(path, "content")
  {
    hide MentionsAny, Contains, Lower;
    MentionsAnyMeans(Lower(path), IsFileTerm);
  }

  lemma DashboardTermsMean(path: string)
    ensures MentionsAny(Lower(path), IsDashboardTerm) <==>
      Mentions(path, "download") || Mentions(path, "export") || Mentions(path, "file") || Mentions(path, "serve")
  {
    hide MentionsAny, Contains, Lower;
    MentionsAnyMeans(Lower(path), IsDashboardTerm);
  }

  lemma FilesMean(reason: Reason, route: Route, verb: string, c: Classifiers)
    requires reason in {AttachmentFileServing, DashboardFiles}
    ensures Violates(reason, route, verb, c) <==> Earns(reason, route, verb, c)
  {
    hide IsDashboard, StartsWith, MentionsAny, Mentions, Lower;
    SurfacesMean(route.path);
    FileTermsMean(route.path);
    DashboardTermsMean(route.path);
  }

  lemma PathTermsMean(reason: Reason, route: Route, verb: string, c: Classifiers)
    requires reason in {WebExport, SuggestsMutation, UnapprovedProcoreFacing}
    ensures Violates(reason, route, verb, c) <==> Earns(reason, route, verb, c)
  {
    hide StartsWith, MentionsAny, Contains, Lower, PROHIBITED_PATH_TERMS;
    StartsWithMeans(route.path, "/review");
    MentionsAnyMeans(Lower(route.path), IsProhibitedTerm);
  }

  lemma ViolatesMeans(reason: Reason, route: Route, verb: string, c: Classifiers)
    requires IsRouteCheck(reason)
    ensures Violates(reason, route, verb, c) <==> Earns(reason, route, verb, c)
  {
    hide Violates, Earns;
    match reason
    case UnknownApiDoc | UnknownHostedUi | WebhookOutsideSignatureBoundary | UnknownAuthBoundary | UnsafeMutation =>
      ClassificationMeans(reason, route, verb, c);
    case AdminNotGet | DashboardNotGet | ReviewNotGet | DeploymentNotGet | DestructiveMethod | UnapprovedPatch =>
      MethodsMean(reason, route, verb, c);
    case AttachmentFileServing | DashboardFiles => FilesMean(reason, route, verb, c);
    case WebExport | SuggestsMutation | UnapprovedProcoreFacing => PathTermsMean(reason, route, verb, c);
  }

  /** About one path and method the audit reports exactly the reasons they earn. */
  lemma PairIssuesMean(route: Route, verb: string, c: Classifiers, reason: Reason)
    ensures RouteIssue(route.path, verb, reason) in PairIssues(route, verb, c) <==> Earns(reason, route, verb, c)
  {
    hide Violates, Earns, PairIssues;
    PairIssuesAre(route, verb, c, RouteIssue(route.path, verb, reason));
    assert VerbIssues(route, c)(verb) == PairIssues(route, verb, c);
    if IsRouteCheck(reason) {
      ViolatesMeans(reason, route, verb, c);
    } else {
      NothingEarns(reason, route, verb, c);
    }
  }

  lemma NothingEarns(reason: Reason, route: Route, verb: string, c: Classifiers)
    requires !IsRouteCheck(reason)
    ensures !Earns(reason, route, verb, c)
  {
  }

  /** The place of a reason in the source: the missing routes come before the loop. */
  function Place(reason: Reason): nat {
    match reason
    case MissingWebhook => 1
    case MissingReplay => 2
    case MissingTriage => 3
    case MissingAttachmentReview => 4
    case MissingDashboard => 5
    case UnknownApiDoc => 6
    case UnknownHostedUi => 7
    case WebhookOutsideSignatureBoundary => 8
    case UnknownAuthBoundary => 9
    case UnsafeMutation => 10
    case WebExport => 11
    case AttachmentFileServing => 12
    case AdminNotGet => 13
    case DashboardNotGet => 14
    case DashboardFiles => 15
    case ReviewNotGet => 16
    case DeploymentNotGet => 17
    case DestructiveMethod => 18
    case UnapprovedPatch => 19
    case SuggestsMutation => 20
    case UnapprovedProcoreFacing => 21
  }

  lemma SixteenChecks()
    ensures |CHECKS| == 16
  {
  }

  lemma ChecksAreInPlace(k: nat)
    requires k < 16
    ensures k < |CHECKS| && Place(CHECKS[k]) == k + 6
  {
  }

  /** The order of the report: methods as sorted, and for one method the checks in place. */
  predicate Precedes(a: RouteIssue, b: RouteIssue) {
    Less(a.verb, b.verb) || (a.verb == b.verb && Place(a.reason) < Place(b.reason))
  }

  predicate EarlierCheck(a: Reason, b: Reason) {
    Place(a) < Place(b)
  }

  lemma ChecksAreOrdered()
    ensures Ordered(CHECKS, EarlierCheck)
  {
    hide Place, CHECKS;
    SixteenChecks();
    forall k: nat | k < 16
      ensures k < |CHECKS| && Place(CHECKS[k]) == k + 6
    {
      ChecksAreInPlace(k);
    }
  }

  /** The issues of one path and method stand in the order of the checks. */
  lemma PairIssuesAreInOrder(route: Route, verb: string, c: Classifiers)
    ensures Ordered(PairIssues(route, verb, c), Precedes)
  {
    hide Violates, Place, CHECKS;
    ChecksAreOrdered();
    FlatMapOrdered(CHECKS, CheckOn(route, verb, c), Precedes, EarlierCheck);
  }

  /** The issues of one route stand in the order of the methods and then of the checks. */
  lemma RouteIssuesAreInOrder(route: Route, c: Classifiers)
    ensures Ordered(RouteIssues(c)(route), Precedes)
  {
    hide Violates, Place, PairIssues, AuditedVerbs;
    forall verb, issue | issue in PairIssues(route, verb, c)
      ensures issue.verb == verb
    {
      PairIssuesAre(route, verb, c, issue);
    }
    forall verb
      ensures Ordered(VerbIssues(route, c)(verb), Precedes)
    {
      PairIssuesAreInOrder(route, verb, c);
    }
    FlatMapOrdered(Sorted(AuditedVerbs(route)), VerbIssues(route, c), Precedes, Less);
  }

  // ----- Whole tables

  /** The route is one of the table's and names the method, which is neither HEAD nor OPTIONS. */
  predicate Serves(route: Route, path: string, verb: string) {
    && route.path == path && route.methods.Some? && verb in route.methods.value
    && verb != "HEAD" && verb != "OPTIONS"
  }

  /** The audit of a table reports a reason about a path and method exactly when a route of the table
      with this path and method earns it. */
  lemma RoutesReport(routes: seq<Route>, c: Classifiers, issue: RouteIssue)
    ensures issue in FlatMap(routes, RouteIssues(c)) <==>
      exists route :: route in routes && Serves(route, issue.path, issue.verb)
                      && Earns(issue.reason, route, issue.verb, c)
  {
    hide Violates, Earns, RouteIssues;
    AuditReportsViolations(routes, c, issue);
    forall route
      ensures Offends(route, c, issue) <==>
              Serves(route, issue.path, issue.verb) && Earns(issue.reason, route, issue.verb, c)
    {
      if IsRouteCheck(issue.reason) {
        ViolatesMeans(issue.reason, route, issue.verb, c);
      } else {
        NothingEarns(issue.reason, route, issue.verb, c);
      }
    }
  }

  /** The path and method that a missing-route reason can be about. */
  predicate Demands(reason: Reason, path: string, verb: string) {
    match reason
    case MissingWebhook => verb == "POST" && (path == "/webhooks/procore" || path == "/webhooks/procore/dry-run")
    case MissingReplay => verb == "POST" && path == "/webhook-events/{webhook_event_id}/replay"
    case MissingTriage =>
      verb == "GET" && path in {"/review/triage", "/review/api/triage", "/review/api/triage/summary"}
    case MissingAttachmentReview =>
      verb == "GET" && path in {
        "/review/attachments", "/review/attachments/{record_id}", "/review/api/attachments",
        "/review/api/attachments/summary", "/review/api/attachments/{record_id}"}
    case MissingDashboard => verb == "GET" && path in {"/dashboard", "/dashboard/api/overview"}
    case _ => false
  }

  /** A required path is reported as missing exactly when no route of the table has it with its method. */
  lemma MissingReport(routes: seq<Route>, issue: RouteIssue)
    ensures issue in MissingIssues(routes) <==>
      Demands(issue.reason, issue.path, issue.verb)
      && !exists route :: route in routes && Serves(route, issue.path, issue.verb)
  {
    hide MissingFor, Available;
    var posts, gets := Available(routes, "POST"), Available(routes, "GET");
    MissingForExactly(WEBHOOK_SIGNATURE_POST_PATHS, posts, "POST", MissingWebhook);
    MissingForExactly(WEBHOOK_REPLAY_POST_PATHS, posts, "POST", MissingReplay);
    MissingForExactly(REQUIRED_TRIAGE_GET_PATHS, gets, "GET", MissingTriage);
    MissingForExactly(REQUIRED_ATTACHMENT_REVIEW_GET_PATHS, gets, "GET", MissingAttachmentReview);
    MissingForExactly(REQUIRED_PRODUCT_DASHBOARD_GET_PATHS, gets, "GET", MissingDashboard);
    AvailableMeans(routes, issue.path, "POST");
    AvailableMeans(routes, issue.path, "GET");
  }

  lemma AvailableMeans(routes: seq<Route>, path: string, verb: string)
    requires verb == "GET" || verb == "POST"
    ensures path in Available(routes, verb) <==> exists route :: route in routes && Serves(route, path, verb)
  {
  }

  /** The order of the missing routes: reason by reason, and the paths of one reason sorted. */
  predicate IsMissingBefore(a: RouteIssue, b: RouteIssue) {
    Place(a.reason) < Place(b.reason) || (a.reason == b.reason && Less(a.path, b.path))
  }

  lemma MissingForIsInOrder(required: set<string>, available: set<string>, verb: string, reason: Reason)
    ensures Ordered(MissingFor(required, available, verb, reason), IsMissingBefore)
    ensures forall issue :: issue in MissingFor(required, available, verb, reason) ==> issue.reason == reason
  {
    FlatMapOrdered(Sorted(required - available), AsMissing(verb, reason), IsMissingBefore, Less);
    MissingForExactly(required, available, verb, reason);
  }

  lemma MissingIssuesAreInOrder(routes: seq<Route>)
    ensures Ordered(MissingIssues(routes), IsMissingBefore)
  {
    hide MissingFor, Available;
    var posts, gets := Available(routes, "POST"), Available(routes, "GET");
    MissingForIsInOrder(WEBHOOK_SIGNATURE_POST_PATHS, posts, "POST", MissingWebhook);
    MissingForIsInOrder(WEBHOOK_REPLAY_POST_PATHS, posts, "POST", MissingReplay);
    MissingForIsInOrder(REQUIRED_TRIAGE_GET_PATHS, gets, "GET", MissingTriage);
    MissingForIsInOrder(REQUIRED_ATTACHMENT_REVIEW_GET_PATHS, gets, "GET", MissingAttachmentReview);
    MissingForIsInOrder(REQUIRED_PRODUCT_DASHBOARD_GET_PATHS, gets, "GET", MissingDashboard);
    var a := MissingFor(WEBHOOK_SIGNATURE_POST_PATHS, posts, "POST", MissingWebhook);
    var b := MissingFor(WEBHOOK_REPLAY_POST_PATHS, posts, "POST", MissingReplay);
    var d := MissingFor(REQUIRED_TRIAGE_GET_PATHS, gets, "GET", MissingTriage);
    var e := MissingFor(REQUIRED_ATTACHMENT_REVIEW_GET_PATHS, gets, "GET", MissingAttachmentReview);
    var f := MissingFor(REQUIRED_PRODUCT_DASHBOARD_GET_PATHS, gets, "GET", MissingDashboard);
    OrderedConcat(a, b, IsMissingBefore);
    OrderedConcat(a + b, d, IsMissingBefore);
    OrderedConcat(a + b + d, e, IsMissingBefore);
    OrderedConcat(a + b + d + e, f, IsMissingBefore);
  }

  /** The whole audit, route reasons and missing routes together. */
  lemma AuditReports(routes: seq<Route>, c: Classifiers, issue: RouteIssue)
    ensures issue in AllIssues(routes, c) <==>
      if IsRouteCheck(issue.reason)
      then exists route :: route in routes && Serves(route, issue.path, issue.verb)
                           && Earns(issue.reason, route, issue.verb, c)
      else Demands(issue.reason, issue.path, issue.verb)
           && !exists route :: route in routes && Serves(route, issue.path, issue.verb)
  {
    hide Earns, RouteIssues, MissingIssues, Serves;
    RoutesReport(routes, c, issue);
    MissingReport(routes, issue);
    if !IsRouteCheck(issue.reason) {
      forall route ensures !Earns(issue.reason, route, issue.verb, c) {
        NothingEarns(issue.reason, route, issue.verb, c);
      }
    }
  }

  /** What a passing table promises about the text of its paths. */
  lemma PassingTableNamesNothing(routes: seq<Route>, c: Classifiers, route: Route, verb: string)
    requires AllIssues(routes, c) == [] && route in routes && Serves(route, route.path, verb)
    ensures forall term :: term in PROHIBITED_PATH_TERMS ==> !Contains(Lower(route.path), term)
    ensures "/review/attachments" <= route.path ==>
              forall term :: term in {"download", "file", "serve", "content"} ==> !Contains(Lower(route.path), term)
    ensures "/dashboard" <= route.path ==>
              forall term :: term in {"download", "export", "file", "serve"} ==> !Contains(Lower(route.path), term)
    ensures "/review" <= route.path ==> !Contains(Lower(route.path), "export")
    ensures Contains(Lower(route.path), "/procore") ==>
              route.path in {"/webhooks/procore", "/webhooks/procore/dry-run"}
  {
    hide AllIssues, Contains, Lower, Serves;
    NothingIsEarned(routes, c, route, verb, SuggestsMutation);
    NothingIsEarned(routes, c, route, verb, AttachmentFileServing);
    NothingIsEarned(routes, c, route, verb, DashboardFiles);
    NothingIsEarned(routes, c, route, verb, WebExport);
    NothingIsEarned(routes, c, route, verb, UnapprovedProcoreFacing);
    assert forall term :: term in PROHIBITED_PATH_TERMS ==> !Mentions(route.path, term);
  }

  lemma NothingIsEarned(routes: seq<Route>, c: Classifiers, route: Route, verb: string, reason: Reason)
    requires AllIssues(routes, c) == [] && route in routes && Serves(route, route.path, verb)
    requires IsRouteCheck(reason)
    ensures !Earns(reason, route, verb, c)
  {
    hide AllIssues, Earns;
    AuditReports(routes, c, RouteIssue(route.path, verb, reason));
  }

  /** A GET route whose path names a deletion is reported, whatever the classifiers say. */
  lemma DeletePathIsReported(c: Classifiers)
    ensures var route := Route("/records/{record_id}/delete", Some({"GET"}));
            RouteIssue(route.path, "GET", SuggestsMutation) in AllIssues([route], c)
  {
    hide AllIssues;
    var route := Route("/records/{record_id}/delete", Some({"GET"}));
    AuditReports([route], c, RouteIssue(route.path, "GET", SuggestsMutation));
    assert route in [route];
    assert route.path == "/records/{record_id}" + "/" + "delete" + "";
    assert Mentions(route.path, "delete") by {
      LowerOfDelete(route.path);
    }
  }

  lemma LowerOfDelete(path: string)
    requires path == "/records/{record_id}/delete"
    ensures Contains(Lower(path), "delete")
  {
    assert Lower(path)[21..27] == "delete";
    assert OccursAt("delete", Lower(path), 21);
  }
}
