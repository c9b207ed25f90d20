/** The route dispatcher (`renderMainContent`) and the page titles
    (`getPageTitle`). Routes are plain strings; the segment names are French. */
module Routing {
  import opened CrmTypes

  const AdminPrefix: string := "/admin/"
  const CoachPrefix: string := "/coach/"

  /** `s.startsWith(prefix)`. */
  predicate StartsWith(s: string, prefix: string) {
    |prefix| <= |s| && s[..|prefix|] == prefix
  }

  /** `pat` occurs in `s` starting at position `j`. */
  predicate OccursAt(s: string, pat: string, j: nat) {
    j + |pat| <= |s| && s[j..j + |pat|] == pat
  }

  /** `s.indexOf(pat, from)`: the first position at or after `from` where `pat` occurs. */
  function IndexOfFrom(s: string, pat: string, from: nat): (r: Option<nat>)
    requires from <= |s|
    ensures r.Some? ==> from <= r.value && OccursAt(s, pat, r.value)
    ensures r.Some? ==> forall j: nat :: from <= j < r.value ==> !OccursAt(s, pat, j)
    ensures r.None? ==> forall j: nat :: from <= j ==> !OccursAt(s, pat, j)
    decreases |s| - from
  {
    if from + |pat| > |s| then None
    else if OccursAt(s, pat, from) then Some(from)
    else IndexOfFrom(s, pat, from + 1)
  }

  /** `pat` occurs at `i` and nowhere before it. */
  predicate FirstOccurrence(s: string, pat: string, i: nat) {
    OccursAt(s, pat, i) && forall j: nat :: j < i ==> !OccursAt(s, pat, j)
  }

  /** `s.replace(pat, rep)` with a string pattern: only the first occurrence is replaced. */
  function ReplaceFirst(s: string, pat: string, rep: string): (r: string)
    ensures (forall j: nat :: !OccursAt(s, pat, j)) ==> r == s
    ensures forall i: nat :: FirstOccurrence(s, pat, i) ==> r == s[..i] + rep + s[i + |pat|..]
  {
    match IndexOfFrom(s, pat, 0)
    case None => s
    case Some(i) => s[..i] + rep + s[i + |pat|..]
  }

  /** `route.replace(prefix, '')` on a route known to start with `prefix`:
      what remains is exactly the text after the prefix. */
  function StripPrefix(route: string, prefix: string): (segment: string)
    requires StartsWith(route, prefix)
    ensures route == prefix + segment
  {
    assert FirstOccurrence(route, prefix, 0);
    ReplaceFirst(route, prefix, "")
  }

  /** Role guard: `requireAdmin()`. Of the two roles, only a coach is refused. */
  predicate RequireAdmin(user: User): (ok: bool)
    ensures ok <==> user.role != Coach
  {
    user.role == Admin
  }

  /** The page components a route can select. */
  datatype Page =
    | Dashboard | Pipeline | ClientList | Calendar
    | Sessions | Billing | StaffManagement | Settings

  /** Which collections the selected page is given: the full ones, or the
      coach-filtered prospects, clients and sessions. */
  datatype DataScope = AllData | CoachData

  datatype View = PageView(page: Page, scope: DataScope) | AccessDenied | NotFound

  /** What rendering produces: the view, and the route it writes back into
      `activeSection` while rendering, if any. */
  datatype Outcome = Outcome(view: View, redirect: Option<string>)

  /** The `switch` under `/admin/`. */
  function AdminPage(segment: string): Option<Page> {
    if segment == "dashboard" then Some(Dashboard)
    else if segment == "pipeline" then Some(Pipeline)
    else if segment == "clients" then Some(ClientList)
    else if segment == "calendrier" then Some(Calendar)
    else if segment == "seances" then Some(Sessions)
    else if segment == "facturation" then Some(Billing)
    else if segment == "equipe" then Some(StaffManagement)
    else if segment == "settings" then Some(Settings)
    else None
  }

  /** The `switch` under `/coach/`: no dashboard and no staff management. */
  function CoachPage(segment: string): Option<Page> {
    if segment == "pipeline" then Some(Pipeline)
    else if segment == "clients" then Some(ClientList)
    else if segment == "calendrier" then Some(Calendar)
    else if segment == "seances" then Some(Sessions)
    else if segment == "facturation" then Some(Billing)
    else if segment == "settings" then Some(Settings)
    else None
  }

  const AdminSegments: set<string> :=
    {"dashboard", "pipeline", "clients", "calendrier", "seances", "facturation", "equipe", "settings"}
  const CoachSegments: set<string> :=
    {"pipeline", "clients", "calendrier", "seances", "facturation", "settings"}

  /** The route each role lands on when its current route is not usable. */
  function LandingRoute(role: Role): string {
    if role == Admin then "/admin/dashboard" else "/coach/pipeline"
  }

  function RolePrefix(role: Role): string {
    if role == Admin then AdminPrefix else CoachPrefix
  }

  /** `renderMainContent()` for route `route` and acting user `user`, with the
      not-found branches showing the not-found view (as written they cannot
      render; see `SelectViewAsWritten`). */
  function SelectView(route: string, user: User): (o: Outcome)
    ensures StartsWith(route, AdminPrefix) && user.role != Admin ==> o == Outcome(AccessDenied, None)
    ensures StartsWith(route, CoachPrefix) && user.role != Coach ==> o == Outcome(AccessDenied, None)
    ensures o.redirect.Some? <==>
      !StartsWith(route, AdminPrefix) && !StartsWith(route, CoachPrefix) && route != "403" && route != "404"
    ensures o.redirect.Some? ==> o.redirect.value == LandingRoute(user.role)
    ensures o.view.PageView? ==> (o.view.scope == AllData <==> user.role == Admin)
  {
    if StartsWith(route, AdminPrefix) then
      if !RequireAdmin(user) then Outcome(AccessDenied, None)
      else
        match AdminPage(StripPrefix(route, AdminPrefix))
        case Some(p) => Outcome(PageView(p, AllData), None)
        case None => Outcome(NotFound, None)
    else if StartsWith(route, CoachPrefix) then
      if user.role != Coach then Outcome(AccessDenied, None)
      else
        match CoachPage(StripPrefix(route, CoachPrefix))
        case Some(p) => Outcome(PageView(p, CoachData), None)
        case None => Outcome(NotFound, None)
    else if route == "403" then Outcome(AccessDenied, None)
    else if route == "404" then Outcome(NotFound, None)
    else if user.role == Admin then Outcome(PageView(Dashboard, AllData), Some("/admin/dashboard"))
    else Outcome(PageView(Pipeline, CoachData), Some("/coach/pipeline"))
  }

  const NotFoundTitle: string := "Page non trouvée"

  /** The 14 titled routes of `getPageTitle`. */
  const RouteTitles: map<string, string> := map[
    "/admin/dashboard" := "Dashboard",
    "/admin/pipeline" := "Pipeline",
    "/admin/clients" := "Clients",
    "/admin/calendrier" := "Calendrier",
    "/admin/seances" := "Séances",
    "/admin/facturation" := "Facturation",
    "/admin/equipe" := "Équipe",
    "/admin/settings" := "Paramètres",
    "/coach/pipeline" := "Pipeline",
    "/coach/clients" := "Clients",
    "/coach/calendrier" := "Calendrier",
    "/coach/seances" := "Séances",
    "/coach/facturation" := "Facturation",
    "/coach/settings" := "Paramètres"
  ]

  /** `getPageTitle(route)`: every mapped title is non-empty, so `||` falls
      back to the default only for an unmapped route. */
  function PageTitle(route: string): (title: string)
    ensures route in RouteTitles ==> title == RouteTitles[route]
    ensures title == NotFoundTitle <==> route !in RouteTitles
  {
    if route in RouteTitles && RouteTitles[route] != "" then RouteTitles[route] else NotFoundTitle
  }

  /** The title each page component is announced with. */
  function PageLabel(p: Page): string {
    match p
    case Dashboard => "Dashboard"
    case Pipeline => "Pipeline"
    case ClientList => "Clients"
    case Calendar => "Calendrier"
    case Sessions => "Séances"
    case Billing => "Facturation"
    case StaffManagement => "Équipe"
    case Settings => "Paramètres"
  }

  /** Inside its own namespace each role reaches exactly its listed segments:
      eight for an administrator, six for a coach, who has neither the
      dashboard nor staff management. */
  lemma NamespaceSegments(segment: string)
    ensures AdminPage(segment).Some? <==> segment in AdminSegments
    ensures CoachPage(segment).Some? <==> segment in CoachSegments
    ensures |AdminSegments| == 8 && |CoachSegments| == 6
    ensures CoachSegments < AdminSegments
    ensures AdminSegments - CoachSegments == {"dashboard", "equipe"}
  {
  }

  /** In the namespace matching the role, a listed segment renders its page with
      the role's data and anything else renders the not-found view; no redirect. */
  lemma OwnNamespaceRoutes(route: string, user: User)
    requires StartsWith(route, RolePrefix(user.role))
    ensures var segment := route[|RolePrefix(user.role)|..];
      var o := SelectView(route, user);
      && o.redirect == None
      && (user.role == Admin ==>
            o.view == (if AdminPage(segment).Some? then PageView(AdminPage(segment).value, AllData) else NotFound))
      && (user.role == Coach ==>
            o.view == (if CoachPage(segment).Some? then PageView(CoachPage(segment).value, CoachData) else NotFound))
  {
    var prefix := RolePrefix(user.role);
    var segment := route[|prefix|..];
    NamespaceSegments(segment);
    var stripped := StripPrefix(route, prefix);
    assert route == prefix + stripped;
    assert stripped == segment;
    if user.role == Admin {
      assert RequireAdmin(user);
    } else {
      assert !StartsWith(route, AdminPrefix) by {
        assert route[1] == 'c';
      }
    }
  }

  /** A route outside both namespaces: `403` and `404` render their fixed views,
      anything else redirects to the role's landing route and renders exactly
      what that route renders, which itself needs no further redirect. */
  lemma FallbackRoutes(route: string, user: User)
    requires !StartsWith(route, AdminPrefix) && !StartsWith(route, CoachPrefix)
    ensures route == "403" ==> SelectView(route, user) == Outcome(AccessDenied, None)
    ensures route == "404" ==> SelectView(route, user) == Outcome(NotFound, None)
    ensures route != "403" && route != "404" ==>
      && SelectView(route, user).redirect == Some(LandingRoute(user.role))
      && SelectView(LandingRoute(user.role), user) == Outcome(SelectView(route, user).view, None)
  {
    if route != "403" && route != "404" {
      LandingRendersDirectly(user);
    }
  }

  /** The landing route renders the landing page without a redirect. */
  lemma LandingRendersDirectly(user: User)
    ensures SelectView(LandingRoute(user.role), user) ==
      if user.role == Admin then Outcome(PageView(Dashboard, AllData), None)
      else Outcome(PageView(Pipeline, CoachData), None)
  {
    var landing := LandingRoute(user.role);
    assert StartsWith(landing, RolePrefix(user.role));
    OwnNamespaceRoutes(landing, user);
    if user.role == Admin {
      assert landing[7..] == "dashboard";
    } else {
      assert landing[7..] == "pipeline";
    }
  }

  /** Exactly two kinds of route reach the not-found view: an unlisted segment
      in the role's own namespace, and `404`. */
  lemma NotFoundRoutes(route: string, user: User)
    ensures SelectView(route, user).view == NotFound <==>
      || (StartsWith(route, RolePrefix(user.role))
          && route[|RolePrefix(user.role)|..] !in (if user.role == Admin then AdminSegments else CoachSegments))
      || route == "404"
  {
    if StartsWith(route, RolePrefix(user.role)) {
      OwnNamespaceRoutes(route, user);
      NamespaceSegments(route[|RolePrefix(user.role)|..]);
      assert route != "404";
    } else if !StartsWith(route, AdminPrefix) && !StartsWith(route, CoachPrefix) {
      FallbackRoutes(route, user);
    }
  }

  /** The admin guard decides the administrator namespace: there, access is
      denied exactly when `requireAdmin()` fails. */
  lemma AdminNamespaceGuard(route: string, user: User)
    requires StartsWith(route, AdminPrefix)
    ensures SelectView(route, user).view == AccessDenied <==> !RequireAdmin(user)
  {
    if RequireAdmin(user) {
      OwnNamespaceRoutes(route, user);
    }
  }

  /** `renderMainContent()` as written: the not-found branches return
      `<NotFoundPage />`, a component the file neither imports nor declares,
      so rendering them fails (`None`) instead of showing a view. */
  function SelectViewAsWritten(route: string, user: User): (r: Option<Outcome>)
    ensures r.None? <==> SelectView(route, user).view == NotFound
    ensures r.Some? ==> r.value == SelectView(route, user)
  {
    if StartsWith(route, AdminPrefix) then
      if !RequireAdmin(user) then Some(Outcome(AccessDenied, None))
      else
        match AdminPage(StripPrefix(route, AdminPrefix))
        case Some(p) => Some(Outcome(PageView(p, AllData), None))
        case None => None
    else if StartsWith(route, CoachPrefix) then
      if user.role != Coach then Some(Outcome(AccessDenied, None))
      else
        match CoachPage(StripPrefix(route, CoachPrefix))
        case Some(p) => Some(Outcome(PageView(p, CoachData), None))
        case None => None
    else if route == "403" then Some(Outcome(AccessDenied, None))
    else if route == "404" then None
    else if user.role == Admin then Some(Outcome(PageView(Dashboard, AllData), Some("/admin/dashboard")))
    else Some(Outcome(PageView(Pipeline, CoachData), Some("/coach/pipeline")))
  }

  /** As written, rendering fails exactly on an unlisted segment of the role's
      own namespace and on `404`; for an administrator on `/admin/foo` it fails
      where the corrected dispatcher shows the not-found view. */
  lemma AsWrittenRenderFails(route: string, user: User)
    ensures SelectViewAsWritten(route, user).None? <==>
      || (StartsWith(route, RolePrefix(user.role))
          && route[|RolePrefix(user.role)|..] !in (if user.role == Admin then AdminSegments else CoachSegments))
      || route == "404"
    ensures user.role == Admin ==>
      SelectViewAsWritten("/admin/foo", user) == None && SelectView("/admin/foo", user) == Outcome(NotFound, None)
  {
    NotFoundRoutes(route, user);
    if user.role == Admin {
      OwnNamespaceRoutes("/admin/foo", user);
      assert "/admin/foo"[7..] == "foo";
    }
  }

  /** The title map holds one entry per listed administrator segment, titled
      with the label of the page that segment selects. */
  lemma AdminSegmentTitle(segment: string)
    requires segment in AdminSegments
    ensures AdminPrefix + segment in RouteTitles && AdminPage(segment).Some?
    ensures RouteTitles[AdminPrefix + segment] == PageLabel(AdminPage(segment).value)
  {
    if segment in {"dashboard", "pipeline", "clients", "calendrier"} {
      AdminLeadingSegmentTitle(segment);
    } else {
      AdminTrailingSegmentTitle(segment);
    }
  }

  /** The first four administrator segments, one literal key at a time (the
      eight keys are split over two lemmas to keep each proof small). */
  lemma AdminLeadingSegmentTitle(segment: string)
    requires segment in {"dashboard", "pipeline", "clients", "calendrier"}
    ensures AdminPrefix + segment in RouteTitles && AdminPage(segment).Some?
    ensures RouteTitles[AdminPrefix + segment] == PageLabel(AdminPage(segment).value)
  {
    if segment == "dashboard" {
      assert AdminPrefix + segment == "/admin/dashboard";
      assert RouteTitles["/admin/dashboard"] == "Dashboard";
    } else if segment == "pipeline" {
      assert AdminPrefix + segment == "/admin/pipeline";
      assert RouteTitles["/admin/pipeline"] == "Pipeline";
    } else if segment == "clients" {
      assert AdminPrefix + segment == "/admin/clients";
      assert RouteTitles["/admin/clients"] == "Clients";
    } else {
      assert AdminPrefix + segment == "/admin/calendrier";
      assert RouteTitles["/admin/calendrier"] == "Calendrier";
    }
  }

  /** The last four administrator segments, one literal key at a time. */
  lemma AdminTrailingSegmentTitle(segment: string)
    requires segment in {"seances", "facturation", "equipe", "settings"}
    ensures AdminPrefix + segment in RouteTitles && AdminPage(segment).Some?
    ensures RouteTitles[AdminPrefix + segment] == PageLabel(AdminPage(segment).value)
  {
    if segment == "seances" {
      assert AdminPrefix + segment == "/admin/seances";
      assert RouteTitles["/admin/seances"] == "Séances";
    } else if segment == "facturation" {
      assert AdminPrefix + segment == "/admin/facturation";
      assert RouteTitles["/admin/facturation"] == "Facturation";
    } else if segment == "equipe" {
      assert AdminPrefix + segment == "/admin/equipe";
      assert RouteTitles["/admin/equipe"] == "Équipe";
    } else {
      assert AdminPrefix + segment == "/admin/settings";
      assert RouteTitles["/admin/settings"] == "Paramètres";
    }
  }

  /** The same for the coach segments. */
  lemma CoachSegmentTitle(segment: string)
    requires segment in CoachSegments
    ensures CoachPrefix + segment in RouteTitles && CoachPage(segment).Some?
    ensures RouteTitles[CoachPrefix + segment] == PageLabel(CoachPage(segment).value)
  {
    if segment == "pipeline" {
      assert CoachPrefix + segment == "/coach/pipeline";
    } else if segment == "clients" {
      assert CoachPrefix + segment == "/coach/clients";
    } else if segment == "calendrier" {
      assert CoachPrefix + segment == "/coach/calendrier";
    } else if segment == "seances" {
      assert CoachPrefix + segment == "/coach/seances";
    } else if segment == "facturation" {
      assert CoachPrefix + segment == "/coach/facturation";
    } else {
      assert CoachPrefix + segment == "/coach/settings";
    }
  }

  /** Every titled route is a namespace prefix followed by a segment listed
      for that namespace. */
  lemma SplitTitledRoute(route: string) returns (role: Role, segment: string)
    requires route in RouteTitles
    ensures route == RolePrefix(role) + segment
    ensures segment in (if role == Admin then AdminSegments else CoachSegments)
  {
    var adminRoutes := {"/admin/dashboard", "/admin/pipeline", "/admin/clients", "/admin/calendrier",
                        "/admin/seances", "/admin/facturation", "/admin/equipe", "/admin/settings"};
    role := if route in adminRoutes then Admin else Coach;
    segment := route[7..];
    assert route == route[..7] + segment;
  }


  /** The header title agrees with the page the router shows: a route that
      renders a page without redirecting is titled with that page's label. */
  lemma TitleAgreesWithView(route: string, user: User)
    ensures var o := SelectView(route, user);
      o.redirect == None && o.view.PageView? ==>
        route in RouteTitles && PageTitle(route) == PageLabel(o.view.page)
  {
    var o := SelectView(route, user);
    if o.redirect == None && o.view.PageView? {
      var prefix := RolePrefix(user.role);
      assert StartsWith(route, prefix);
      OwnNamespaceRoutes(route, user);
      var segment := route[|prefix|..];
      assert route == prefix + segment;
      if user.role == Admin {
        AdminSegmentTitle(segment);
      } else {
        CoachSegmentTitle(segment);
      }
    }
  }

  /** Every titled route lies in a namespace, and renders its page for the
      role owning that namespace. */
  lemma TitledRoutesRender(route: string, user: User)
    requires route in RouteTitles
    ensures StartsWith(route, AdminPrefix) || StartsWith(route, CoachPrefix)
    ensures StartsWith(route, RolePrefix(user.role)) ==>
      SelectView(route, user).redirect == None && SelectView(route, user).view.PageView?
  {
    var role, segment := SplitTitledRoute(route);
    assert route[..7] == RolePrefix(role);
    if StartsWith(route, RolePrefix(user.role)) {
      OwnNamespaceRoutes(route, user);
      NamespaceSegments(route[|RolePrefix(user.role)|..]);
      assert route[7..] == segment;
    }
  }
}
