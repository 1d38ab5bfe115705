/** Concrete tables for the route auditor: one that passes, and one whose routes it does not see. */
module RouteExamples {
  import opened Options
  import opened Strings
  import opened Sequences
  import opened RouteAudit

  // ----- A router wrapped twice

  /** The route of a doubly wrapped router hangs below the application and is not collected. */
  lemma DoublyWrappedRouteIsUnseen(route: Route)
    ensures AllRoutes([Wrapped([Wrapped([Direct(route)])])]) == [route]
    ensures FlatMap([Wrapped([Wrapped([Direct(route)])])], CandidateRoutes) == []
  {
    var inner := Wrapped([Direct(route)]);
    assert AllRoutes([Direct(route)]) == [route];
    assert AllRoutes([inner]) == [route];
    FlatMapSingle(inner, OwnRoutes);
    FlatMapSingle(Wrapped([inner]), CandidateRoutes);
  }

  // ----- The required routes pass

  /** How any prohibited term, file term or dashboard term begins. */
  predicate BeginsTerm(a: char, b: char, c: char) {
    || (a == 'a' && (b == 'p' || b == 's') && (c == 'p' || c == 's'))
    || (a == 'c' && b == 'a' && c == 'l') || (a == 'c' && b == 'l' && c == 'o')
    || (a == 'c' && b == 'o' && (c == 'm' || c == 'n'))
    || (a == 'd' && b == 'e' && c == 'l') || (a == 'd' && b == 'o' && c == 'w')
    || (a == 'e' && b == 'm' && c == 'a') || (a == 'e' && b == 'x' && c == 'p')
    || (a == 'f' && b == 'i' && c == 'l') || (a == 'n' && b == 'o' && c == 't')
    || (a == 'r' && b == 'e' && c == 'g')
    || (a == 's' && (b == 'e' || b == 'l' || b == 'u') && (c == 'n' || c == 'r' || c == 'a' || c == 'b'))
    || (a == 'u' && b == 'p' && c == 'l') || (a == 'w' && b == 'r' && c == 'i')
  }

  predicate IsTerm(term: string) {
    IsProhibitedTerm(term) || IsFileTerm(term) || IsDashboardTerm(term) || term == "export"
  }

  lemma TermsBegin(term: string)
    requires IsTerm(term)
    ensures |term| > 2 && BeginsTerm(term[0], term[1], term[2])
  {
  }

  /** No term begins at position i, nor, where `facing` is false, does "/p". */
  predicate IsQuietAt(path: string, i: nat, facing: bool)
    requires i + 2 < |path|
  {
    && !BeginsTerm(LowerChar(path[i]), LowerChar(path[i + 1]), LowerChar(path[i + 2]))
    && (facing || !(LowerChar(path[i]) == '/' && LowerChar(path[i + 1]) == 'p'))
  }

  predicate IsQuiet(path: string) {
    forall i: nat :: i + 2 < |path| ==> IsQuietAt(path, i, IsWebhookPath(path))
  }

  lemma PathCharacters()
    ensures LowerChar('a') == 'a' && LowerChar('b') == 'b' && LowerChar('c') == 'c' && LowerChar('d') == 'd'
    ensures LowerChar('e') == 'e' && LowerChar('f') == 'f' && LowerChar('g') == 'g' && LowerChar('h') == 'h'
    ensures LowerChar('i') == 'i' && LowerChar('j') == 'j' && LowerChar('k') == 'k' && LowerChar('l') == 'l'
    ensures LowerChar('m') == 'm' && LowerChar('n') == 'n' && LowerChar('o') == 'o' && LowerChar('p') == 'p'
    ensures LowerChar('q') == 'q' && LowerChar('r') == 'r' && LowerChar('s') == 's' && LowerChar('t') == 't'
    ensures LowerChar('u') == 'u' && LowerChar('v') == 'v' && LowerChar('w') == 'w' && LowerChar('x') == 'x'
    ensures LowerChar('y') == 'y' && LowerChar('z') == 'z' && LowerChar('/') == '/' && LowerChar('-') == '-'
    ensures LowerChar('_') == '_' && LowerChar('{') == '{' && LowerChar('}') == '}'
  {
  }

  lemma Quiet1(path: string, i: nat)
    requires path == "/webhooks/procore" && i + 2 < |path|
    ensures IsQuietAt(path, i, true)
  {
    hide LowerChar;
    PathCharacters();
  }

  lemma Quiet2(path: string, i: nat)
    requires path == "/webhooks/procore/dry-run" && i + 2 < |path|
    ensures IsQuietAt(path, i, true)
  {
    hide LowerChar;
    PathCharacters();
  }

  lemma Quiet3(path: string, i: nat)
    requires path == "/webhook-events/{webhook_event_id}/replay" && i + 2 < |path|
    ensures IsQuietAt(path, i, false)
  {
    hide LowerChar;
    PathCharacters();
  }

  lemma Quiet4(path: string, i: nat)
    requires path == "/review/triage" && i + 2 < |path|
    ensures IsQuietAt(path, i, false)
  {
    hide LowerChar;
    PathCharacters();
  }

  lemma Quiet5(path: string, i: nat)
    requires path == "/review/api/triage" && i + 2 < |path|
    ensures IsQuietAt(path, i, false)
  {
    hide LowerChar;
    PathCharacters();
  }

  lemma Quiet6(path: string, i: nat)
    requires path == "/review/api/triage/summary" && i + 2 < |path|
    ensures IsQuietAt(path, i, false)
  {
    hide LowerChar;
    PathCharacters();
  }

  lemma Quiet7(path: string, i: nat)
    requires path == "/review/attachments" && i + 2 < |path|
    ensures IsQuietAt(path, i, false)
  {
    hide LowerChar;
    PathCharacters();
  }

  lemma Quiet8(path: string, i: nat)
    requires path == "/review/attachments/{record_id}" && i + 2 < |path|
    ensures IsQuietAt(path, i, false)
  {
    hide LowerChar;
    PathCharacters();
  }

  lemma Quiet9(path: string, i: nat)
    requires path == "/review/api/attachments" && i + 2 < |path|
    ensures IsQuietAt(path, i, false)
  {
    hide LowerChar;
    PathCharacters();
  }

  lemma Quiet10(path: string, i: nat)
    requires path == "/review/api/attachments/summary" && i + 2 < |path|
    ensures IsQuietAt(path, i, false)
  {
    hide LowerChar;
    PathCharacters();
  }

  lemma Quiet11(path: string, i: nat)
    requires path == "/review/api/attachments/{record_id}" && i + 2 < |path|
    ensures IsQuietAt(path, i, false)
  {
    hide LowerChar;
    PathCharacters();
  }

  lemma Quiet12(path: string, i: nat)
    requires path == "/dashboard" && i + 2 < |path|
    ensures IsQuietAt(path, i, false)
  {
    hide LowerChar;
    PathCharacters();
  }

  lemma Quiet13(path: string, i: nat)
    requires path == "/dashboard/api/overview" && i + 2 < |path|
    ensures IsQuietAt(path, i, false)
  {
    hide LowerChar;
    PathCharacters();
  }

  const POSTS: seq<string> := [
    "/webhooks/procore", "/webhooks/procore/dry-run", "/webhook-events/{webhook_event_id}/replay"
  ]

  const GETS: seq<string> := [
    "/review/triage", "/review/api/triage", "/review/api/triage/summary", "/review/attachments",
    "/review/attachments/{record_id}", "/review/api/attachments", "/review/api/attachments/summary",
    "/review/api/attachments/{record_id}", "/dashboard", "/dashboard/api/overview"
  ]

  lemma PostsAreQuiet(path: string)
    requires path in POSTS
    ensures IsQuiet(path)
  {
    hide IsQuietAt;
    forall i: nat | i + 2 < |path|
      ensures IsQuietAt(path, i, IsWebhookPath(path))
    {
      if path == POSTS[0] {
        Quiet1(path, i);
      } else if path == POSTS[1] {
        Quiet2(path, i);
      } else {
        Quiet3(path, i);
      }
    }
  }

  lemma GetsAreQuiet(path: string)
    requires path in GETS
    ensures IsQuiet(path) && !IsWebhookPath(path)
  {
    hide IsQuietAt;
    assert |path| > 1 && path[1] != 'w';
    assert !IsWebhookPath(path);
    forall i: nat | i + 2 < |path|
      ensures IsQuietAt(path, i, false)
    {
      if path == GETS[0] {
        Quiet4(path, i);
      } else if path == GETS[1] {
        Quiet5(path, i);
      } else if path == GETS[2] {
        Quiet6(path, i);
      } else if path == GETS[3] {
        Quiet7(path, i);
      } else if path == GETS[4] {
        Quiet8(path, i);
      } else if path == GETS[5] {
        Quiet9(path, i);
      } else if path == GETS[6] {
        Quiet10(path, i);
      } else if path == GETS[7] {
        Quiet11(path, i);
      } else if path == GETS[8] {
        Quiet12(path, i);
      } else {
        Quiet13(path, i);
      }
    }
  }

  lemma QuietMentionsNothing(path: string, isTerm: string -> bool)
    requires IsQuiet(path) && forall term :: isTerm(term) ==> IsTerm(term)
    ensures !MentionsAny(Lower(path), isTerm)
  {
    hide IsTerm, BeginsTerm;
    var text := Lower(path);
    forall i, j | 0 <= i <= j <= |text|
      ensures !isTerm(text[i..j])
    {
      var term := text[i..j];
      assert |term| > 2 ==> term[0] == text[i] && term[1] == text[i + 1] && term[2] == text[i + 2];
      assert i + 2 < |path| ==> IsQuietAt(path, i, IsWebhookPath(path));
      if isTerm(term) {
        TermsBegin(term);
      }
    }
  }

  predicate IsExport(term: string) {
    term == "export"
  }

  lemma QuietIsFileFree(path: string)
    requires IsQuiet(path)
    ensures IsFileFree(path)
  {
    hide IsQuiet, IsProhibitedTerm;
    QuietMentionsNothing(path, IsFileTerm);
    QuietMentionsNothing(path, IsDashboardTerm);
    QuietMentionsNothing(path, IsExport);
  }

  lemma QuietIsMutationFree(path: string)
    requires IsQuiet(path)
    ensures IsMutationFree(path)
  {
    hide IsProhibitedTerm, BeginsTerm, IsWebhookPath, IsFileTerm, IsDashboardTerm;
    QuietMentionsNothing(path, IsProhibitedTerm);
    var text := Lower(path);
    if Contains(text, "/procore") {
      var i :| 0 <= i <= |text| && OccursAt("/procore", text, i);
      assert text[i..i + 8][0] == '/' && text[i..i + 8][1] == 'p';
      assert IsQuietAt(path, i, IsWebhookPath(path));
    }
  }

  /** Classifiers that call everything a webhook receiver at the signature boundary. */
  const PERMISSIVE := Classifiers(
    (route: Route) => AuthBoundary(WebhookSignatureClass, WebhookSignatureProtection, WebhookPostSignature),
    (route: Route) => Documented("d", "d", "d"),
    (documented: Documented) => HostedUi("h", "h", "h", "h"))

  lemma QuietRouteIsAllowed(route: Route, verb: string)
    requires IsQuiet(route.path) && IsReadOnly(route.path, verb)
    ensures IsAllowed(route, verb, PERMISSIVE)
  {
    hide IsQuiet, IsFileFree, IsMutationFree, IsReadOnly;
    QuietIsFileFree(route.path);
    QuietIsMutationFree(route.path);
  }

  function RouteFor(verb: string): string -> seq<Route> {
    path => [Route(path, Some({verb}))]
  }

  /** One route for every path of the two lists. */
  function Table(posts: seq<string>, gets: seq<string>): seq<Route> {
    FlatMap(posts, RouteFor("POST")) + FlatMap(gets, RouteFor("GET"))
  }

  lemma RoutesFor(paths: seq<string>, verb: string, route: Route)
    ensures route in FlatMap(paths, RouteFor(verb)) <==> route.path in paths && route.methods == Some({verb})
  {
    FlatMapContains(paths, RouteFor(verb));
    if route.path in paths && route.methods == Some({verb}) {
      assert route in RouteFor(verb)(route.path);
    }
  }

  lemma TableOffers(posts: seq<string>, gets: seq<string>)
    ensures forall path :: path in posts ==> path in Available(Table(posts, gets), "POST")
    ensures forall path :: path in gets ==> path in Available(Table(posts, gets), "GET")
  {
    forall path | path in posts
      ensures path in Available(Table(posts, gets), "POST")
    {
      RoutesFor(posts, "POST", Route(path, Some({"POST"})));
      assert Route(path, Some({"POST"})) in Table(posts, gets);
    }
    forall path | path in gets
      ensures path in Available(Table(posts, gets), "GET")
    {
      RoutesFor(gets, "GET", Route(path, Some({"GET"})));
      assert Route(path, Some({"GET"})) in Table(posts, gets);
    }
  }

  lemma RequiredPathsListed()
    ensures forall path :: path in WEBHOOK_SIGNATURE_POST_PATHS + WEBHOOK_REPLAY_POST_PATHS ==> path in POSTS
    ensures forall path ::
      path in REQUIRED_TRIAGE_GET_PATHS + REQUIRED_ATTACHMENT_REVIEW_GET_PATHS + REQUIRED_PRODUCT_DASHBOARD_GET_PATHS
      ==> path in GETS
  {
  }

  lemma PostsAreReadOnly(path: string)
    requires path in POSTS
    ensures IsReadOnly(path, "POST")
  {
    assert |path| > 1 && path[1] == 'w';
    hide IsLocalLifecyclePostPath, IsLocalPatchPath;
    assert !IsAdmin(path) && !IsDeployment(path) && !IsDashboard(path) && !IsReview(path) by {
      assert |path| > 10 ==> path[..6][1] == 'w' && path[..11][1] == 'w' && path[..10][1] == 'w' && path[..7][1] == 'w';
    }
  }

  lemma TableRouteIsAllowed(route: Route)
    requires route in Table(POSTS, GETS)
    ensures RouteIsAllowed(route, PERMISSIVE)
  {
    hide IsQuiet, IsReadOnly, IsAllowed;
    RoutesFor(POSTS, "POST", route);
    RoutesFor(GETS, "GET", route);
    if route.path in POSTS && route.methods == Some({"POST"}) {
      PostsAreQuiet(route.path);
      PostsAreReadOnly(route.path);
      QuietRouteIsAllowed(route, "POST");
    } else {
      GetsAreQuiet(route.path);
      GetIsReadOnly(route.path);
      QuietRouteIsAllowed(route, "GET");
    }
  }

  lemma GetIsReadOnly(path: string)
    ensures IsReadOnly(path, "GET")
  {
  }

  lemma RequiredRoutesArePresent(posts: seq<string>, gets: seq<string>)
    requires forall path :: path in WEBHOOK_SIGNATURE_POST_PATHS + WEBHOOK_REPLAY_POST_PATHS ==> path in posts
    requires forall path ::
      path in REQUIRED_TRIAGE_GET_PATHS + REQUIRED_ATTACHMENT_REVIEW_GET_PATHS + REQUIRED_PRODUCT_DASHBOARD_GET_PATHS
      ==> path in gets
    ensures RequiredPresent(Table(posts, gets))
  {
    hide Available;
    TableOffers(posts, gets);
  }

  /** The required routes do not offend against the audit's own rules: a table of just these passes,
      so what passing tables promise is promised of some. */
  lemma RequiredTablePasses()
    ensures AllIssues(Table(POSTS, GETS), PERMISSIVE) == []
  {
    hide RouteIsAllowed, Table, Available, RequiredPresent, AllIssues;
    forall route | route in Table(POSTS, GETS)
      ensures RouteIsAllowed(route, PERMISSIVE)
    {
      TableRouteIsAllowed(route);
    }
    RequiredPathsListed();
    RequiredRoutesArePresent(POSTS, GETS);
    AuditPassesIff(Table(POSTS, GETS), PERMISSIVE);
  }
}
