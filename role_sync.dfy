/** The role-sync effect: whenever the role or the active route changes, the
    acting user is re-derived from the role, and a route outside the role's
    namespace is replaced by the role's landing route. */
module RoleSync {
  import opened CrmTypes
  import opened Routing

  /** The acting user derived from the role: id 1 for an administrator, id 2
      for a coach (permissions are not modelled). */
  function ProfileFor(role: Role): (u: User)
    ensures u.role == role
    ensures u.id == (if role == Admin then 1 else 2)
  {
    User(
      if role == Admin then 1 else 2,
      if role == Admin then "Admin User" else "Marie Coach",
      if role == Admin then "admin@coachcrm.com" else "marie@coachcrm.com",
      "+33 6 12 34 56 78",
      role,
      true,
      "2024-01-01",
      if role == Admin then ["Leadership", "Développement personnel"] else ["Confiance en soi", "Carrière"])
  }

  /** The redirect half of the effect, on the active route. */
  function SyncedSection(role: Role, section: string): (s: string)
    ensures StartsWith(s, RolePrefix(role))
    ensures StartsWith(section, RolePrefix(role)) ==> s == section
    ensures !StartsWith(section, RolePrefix(role)) ==> s == LandingRoute(role)
  {
    if role == Admin && !StartsWith(section, AdminPrefix) then "/admin/dashboard"
    else if role == Coach && !StartsWith(section, CoachPrefix) then "/coach/pipeline"
    else section
  }

  /** The part of the component state the effect reads and writes. */
  datatype RouteState = RouteState(userRole: Role, currentUser: User, activeSection: string)

  /** One run of the effect. */
  function Effect(st: RouteState): (next: RouteState)
    ensures next.userRole == st.userRole
    ensures next.currentUser.role == st.userRole
    ensures next.currentUser.id == (if st.userRole == Admin then 1 else 2)
    ensures StartsWith(next.activeSection, RolePrefix(st.userRole))
  {
    RouteState(st.userRole, ProfileFor(st.userRole), SyncedSection(st.userRole, st.activeSection))
  }

  /** The effect reaches its fixpoint in one run: running it again changes nothing. */
  lemma EffectIdempotent(st: RouteState)
    ensures Effect(Effect(st)) == Effect(st)
  {
  }

  /** The effect leaves a state alone exactly when the acting user already matches
      the role and the route already lies in the role's namespace. */
  lemma EffectFixpointIff(st: RouteState)
    ensures Effect(st) == st <==>
      st.currentUser == ProfileFor(st.userRole) && StartsWith(st.activeSection, RolePrefix(st.userRole))
  {
  }

  /** Once the effect has run, rendering neither denies access nor redirects. */
  lemma SettledStateRendersDirectly(st: RouteState)
    ensures var e := Effect(st);
      var o := SelectView(e.activeSection, e.currentUser);
      o.redirect == None && o.view != AccessDenied
  {
    var e := Effect(st);
    OwnNamespaceRoutes(e.activeSection, e.currentUser);
  }

  /** The redirect that rendering performs agrees with the effect's redirect. */
  lemma RenderRedirectAgreesWithEffect(role: Role, route: string)
    ensures var o := SelectView(route, ProfileFor(role));
      o.redirect.Some? ==> o.redirect.value == SyncedSection(role, route)
  {
  }

  /** `403`, `404` and the bare `settings` route lie in no namespace, so the
      effect always moves them to the landing route. */
  lemma BareRoutesRedirected(role: Role)
    ensures SyncedSection(role, "403") == LandingRoute(role)
    ensures SyncedSection(role, "404") == LandingRoute(role)
    ensures SyncedSection(role, "settings") == LandingRoute(role)
  {
    assert "settings"[0] != RolePrefix(role)[0];
  }

  /** Switching from administrator to coach on the dashboard resets the route
      to the coach pipeline; switching back lands on the dashboard. */
  lemma RoleSwitchResetsRoute()
    ensures SyncedSection(Coach, "/admin/dashboard") == "/coach/pipeline"
    ensures SyncedSection(Admin, "/coach/pipeline") == "/admin/dashboard"
  {
    assert "/admin/dashboard"[1] != CoachPrefix[1];
    assert "/coach/pipeline"[1] != AdminPrefix[1];
  }

  /** The route the profile button writes, as written: no namespace. */
  const ProfileRouteAsWritten: string := "settings"

  /** The profile button as written never shows the settings page: rendering
      falls back to the landing page and the effect moves the route there. */
  lemma ProfileClickNeverShowsSettings(role: Role)
    ensures var o := SelectView(ProfileRouteAsWritten, ProfileFor(role));
      && o.view.PageView? && o.view.page != Settings
      && o.redirect == Some(LandingRoute(role))
      && SyncedSection(role, ProfileRouteAsWritten) == LandingRoute(role)
  {
    assert ProfileRouteAsWritten[0] != AdminPrefix[0];
    assert ProfileRouteAsWritten[0] != CoachPrefix[0];
  }

  /** The route the profile button evidently means: the role's settings page. */
  function SettingsRoute(role: Role): (route: string)
    ensures StartsWith(route, RolePrefix(role))
  {
    RolePrefix(role) + "settings"
  }

  /** The intended route shows the settings page, with the role's data and a
      "Paramètres" title, and the effect keeps it. */
  lemma SettingsRouteShowsSettings(role: Role)
    ensures SelectView(SettingsRoute(role), ProfileFor(role)) ==
      Outcome(PageView(Settings, if role == Admin then AllData else CoachData), None)
    ensures SyncedSection(role, SettingsRoute(role)) == SettingsRoute(role)
    ensures PageTitle(SettingsRoute(role)) == "Paramètres"
  {
    var route := SettingsRoute(role);
    SettingsSegment(role);
    OwnNamespaceRoutes(route, ProfileFor(role));
    SettingsTitle(role);
  }

  lemma SettingsSegment(role: Role)
    ensures SettingsRoute(role)[7..] == "settings"
    ensures "settings" in AdminSegments && "settings" in CoachSegments
    ensures AdminPage("settings") == Some(Settings) && CoachPage("settings") == Some(Settings)
  {
    assert SettingsRoute(role) == RolePrefix(role) + "settings";
  }

  lemma SettingsTitle(role: Role)
    ensures PageTitle(SettingsRoute(role)) == "Paramètres"
  {
    if role == Admin {
      AdminSegmentTitle("settings");
    } else {
      CoachSegmentTitle("settings");
    }
  }
}
