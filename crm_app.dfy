/** The application component's state and the handlers that update it: the
    collections, the role, the acting user and the active route. */
module CrmApp {
  import opened CrmTypes
  import opened SeqOps
  import opened RoleFilter
  import opened Routing
  import opened RoleSync

  /** The collections a page is given. A coach's pages get the filtered
      prospects, clients and sessions but the full staff list. */
  function PageData(scope: DataScope, user: User, all: Collections): (d: Collections)
    ensures scope == AllData ==> d == all
    ensures scope == CoachData ==> d.staff == all.staff
    ensures scope == CoachData ==> d == FilteredData(user, all).(staff := all.staff)
    ensures scope == CoachData && user.role == Coach ==>
      && IsSubsequence(d.prospects, all.prospects)
      && IsSubsequence(d.clients, all.clients)
      && IsSubsequence(d.sessions, all.sessions)
      && (forall p :: p in d.prospects <==> p in all.prospects && p.assignedCoachId == Some(user.id))
      && (forall c :: c in d.clients <==> c in all.clients && c.assignedCoachId == Some(user.id))
      && (forall s :: s in d.sessions <==> s in all.sessions && SessionOwnedBy(all.clients, user.id)(s))
  {
    if scope == AllData then all
    else
      var v := FilteredData(user, all);
      FilterIsSubsequence(all.prospects, ProspectOwnedBy(user.id));
      FilterIsSubsequence(all.clients, ClientOwnedBy(user.id));
      FilterIsSubsequence(all.sessions, SessionOwnedBy(all.clients, user.id));
      Collections(v.prospects, v.clients, v.sessions, all.staff)
  }

  function StaffWithoutId(userId: int): User -> bool {
    (u: User) => u.id != userId
  }

  /** Deleting by id removes every record with that id and keeps every other
      record, with its multiplicity and in its original order. */
  lemma DeleteByIdSpec(staff: seq<User>, userId: int)
    ensures var r := Filter(staff, StaffWithoutId(userId));
      && (forall i :: 0 <= i < |r| ==> r[i].id != userId)
      && (forall u: User :: u.id != userId ==> multiset(r)[u] == multiset(staff)[u])
      && IsSubsequence(r, staff)
  {
    FilterIsSubsequence(staff, StaffWithoutId(userId));
    forall u: User | u.id != userId
      ensures multiset(Filter(staff, StaffWithoutId(userId)))[u] == multiset(staff)[u]
    {
      FilterCount(staff, StaffWithoutId(userId), u);
    }
  }

  /** Adding a prospect grows a coach's pipeline by that prospect exactly when
      it is assigned to the coach, and leaves the rest of the view alone. */
  lemma AddProspectVisibility(user: User, all: Collections, p: Prospect)
    requires user.role == Coach
    ensures FilteredData(user, all.(prospects := all.prospects + [p])).prospects ==
      FilteredData(user, all).prospects + (if p.assignedCoachId == Some(user.id) then [p] else [])
  {
    FilterSnoc(all.prospects, p, ProspectOwnedBy(user.id));
  }

  /** Creating a session grows a coach's session list by that session exactly
      when its client, looked up in the unfiltered list, is the coach's. */
  lemma CreateSessionVisibility(user: User, all: Collections, s: Session)
    requires user.role == Coach
    ensures FilteredData(user, all.(sessions := all.sessions + [s])).sessions ==
      FilteredData(user, all).sessions + (if SessionOwnedBy(all.clients, user.id)(s) then [s] else [])
  {
    FilterSnoc(all.sessions, s, SessionOwnedBy(all.clients, user.id));
  }

  /** Adding a client grows a coach's client list by that client exactly when it
      is assigned to the coach. */
  lemma AddClientVisibility(user: User, all: Collections, c: Client)
    requires user.role == Coach
    ensures FilteredData(user, all.(clients := all.clients + [c])).clients ==
      FilteredData(user, all).clients + (if c.assignedCoachId == Some(user.id) then [c] else [])
  {
    FilterSnoc(all.clients, c, ClientOwnedBy(user.id));
  }

  /** A worked example: coach 2 sees client 10 and its session 100; session
      101 points at no client and is hidden. */
  lemma CoachExample()
    ensures var coach := ProfileFor(Coach);
      var c10 := Client(10, "Sophie Laurent", "active", Some(2));
      var c11 := Client(11, "Isabelle Moreau", "completed", Some(1));
      var s100 := Session(100, Some(10));
      var s101 := Session(101, Some(999));
      var all := Collections([], [c10, c11], [s100, s101], [ProfileFor(Admin), coach]);
      var v := FilteredData(coach, all);
      v.clients == [c10] && v.sessions == [s100] && v.staff == [coach]
  {
    var coach := ProfileFor(Coach);
    var c10 := Client(10, "Sophie Laurent", "active", Some(2));
    var c11 := Client(11, "Isabelle Moreau", "completed", Some(1));
    var clients := [c10, c11];
    assert FindClient(clients, 10) == Some(c10);
    assert FindClient(clients[1..], 999) == None;
    assert FindClient(clients, 999) == None;
  }

  class App {
    var activeSection: string
    var userRole: Role
    var currentUser: User
    var prospects: seq<Prospect>
    var clients: seq<Client>
    var sessions: seq<Session>
    var staff: seq<User>

    /** The initial state: the administrator on the dashboard and no sessions.
        The seed records are passed in. */
    constructor (seedProspects: seq<Prospect>, seedClients: seq<Client>, seedStaff: seq<User>)
      ensures activeSection == "/admin/dashboard" && userRole == Admin
      ensures currentUser == ProfileFor(Admin)
      ensures prospects == seedProspects && clients == seedClients
      ensures sessions == [] && staff == seedStaff
      ensures Settled()
    {
      activeSection := "/admin/dashboard";
      userRole := Admin;
      currentUser := ProfileFor(Admin);
      prospects := seedProspects;
      clients := seedClients;
      sessions := [];
      staff := seedStaff;
      new;
      assert StartsWith(activeSection, AdminPrefix);
    }

    function Data(): Collections
      reads this
    {
      Collections(prospects, clients, sessions, staff)
    }

    /** The state the role-sync effect leaves alone. */
    predicate Settled()
      reads this
    {
      currentUser == ProfileFor(userRole) && StartsWith(activeSection, RolePrefix(userRole))
    }

    /** `getFilteredData()` on the current state. */
    function GetFilteredData(): (v: Collections)
      reads this
      ensures currentUser.role == Admin ==> v == Data()
      ensures v == FilteredData(currentUser, Data())
      ensures currentUser.role == Coach ==>
        && (forall p :: p in v.prospects <==> p in prospects && p.assignedCoachId == Some(currentUser.id))
        && (forall c :: c in v.clients <==> c in clients && c.assignedCoachId == Some(currentUser.id))
        && (forall s :: s in v.sessions <==> s in sessions && SessionOwnedBy(clients, currentUser.id)(s))
        && (forall u :: u in v.staff <==> u in staff && u.id == currentUser.id)
    {
      FilteredData(currentUser, Data())
    }

    /** The role-sync effect: re-derive the acting user from the role, and
        move a route outside the role's namespace to the landing route. */
    method SyncRole()
      modifies this
      ensures userRole == old(userRole) && currentUser == ProfileFor(userRole)
      ensures activeSection == SyncedSection(userRole, old(activeSection))
      ensures Data() == old(Data())
      ensures Settled()
      ensures old(Settled()) ==> activeSection == old(activeSection) && currentUser == old(currentUser)
    {
      currentUser := ProfileFor(userRole);
      if userRole == Admin && !StartsWith(activeSection, AdminPrefix) {
        activeSection := "/admin/dashboard";
      } else if userRole == Coach && !StartsWith(activeSection, CoachPrefix) {
        activeSection := "/coach/pipeline";
      }
    }

    /** The role setter that a completed login calls. */
    method SetUserRole(role: Role)
      modifies this
      ensures userRole == role
      ensures currentUser == old(currentUser) && activeSection == old(activeSection)
      ensures Data() == old(Data())
    {
      userRole := role;
    }

    /** The sidebar's `setActiveSection(route)`. */
    method Navigate(route: string)
      modifies this
      ensures activeSection == route
      ensures userRole == old(userRole) && currentUser == old(currentUser)
      ensures Data() == old(Data())
    {
      activeSection := route;
    }

    /** `handleProfileClick`: writes the bare route `settings`. */
    method ProfileClick()
      modifies this
      ensures activeSection == ProfileRouteAsWritten
      ensures userRole == old(userRole) && currentUser == old(currentUser)
      ensures Data() == old(Data())
    {
      activeSection := "settings";
    }

    /** `renderMainContent()`: select the view for the active route, with the
        collections the page receives, and write back the fallback redirect. */
    method RenderMainContent() returns (view: View, data: Option<Collections>)
      modifies this
      ensures var o := SelectView(old(activeSection), currentUser);
        && view == o.view
        && activeSection == (if o.redirect.Some? then o.redirect.value else old(activeSection))
      ensures data == if view.PageView? then Some(PageData(view.scope, currentUser, Data())) else None
      ensures userRole == old(userRole) && currentUser == old(currentUser)
      ensures Data() == old(Data())
      ensures old(Settled()) ==> activeSection == old(activeSection) && view != AccessDenied
    {
      var o := SelectView(activeSection, currentUser);
      if old(Settled()) {
        SettledStateRendersDirectly(RouteState(userRole, currentUser, activeSection));
      }
      view := o.view;
      data := if view.PageView? then Some(PageData(view.scope, currentUser, Data())) else None;
      if o.redirect.Some? {
        activeSection := o.redirect.value;
      }
    }

    method AddProspect(p: Prospect)
      modifies this
      ensures prospects == old(prospects) + [p]
      ensures clients == old(clients) && sessions == old(sessions) && staff == old(staff)
      ensures userRole == old(userRole) && currentUser == old(currentUser) && activeSection == old(activeSection)
    {
      prospects := prospects + [p];
    }

    method AddClient(c: Client)
      modifies this
      ensures clients == old(clients) + [c]
      ensures prospects == old(prospects) && sessions == old(sessions) && staff == old(staff)
      ensures userRole == old(userRole) && currentUser == old(currentUser) && activeSection == old(activeSection)
    {
      clients := clients + [c];
    }

    method CreateSession(s: Session)
      modifies this
      ensures sessions == old(sessions) + [s]
      ensures prospects == old(prospects) && clients == old(clients) && staff == old(staff)
      ensures userRole == old(userRole) && currentUser == old(currentUser) && activeSection == old(activeSection)
    {
      sessions := sessions + [s];
    }

    method AddStaff(u: User)
      modifies this
      ensures staff == old(staff) + [u]
      ensures prospects == old(prospects) && clients == old(clients) && sessions == old(sessions)
      ensures userRole == old(userRole) && currentUser == old(currentUser) && activeSection == old(activeSection)
    {
      staff := staff + [u];
    }

    /** `handleUpdateClient`: replace every client carrying the id of `c`. */
    method UpdateClient(c: Client)
      modifies this
      ensures clients == ReplaceById(old(clients), ClientId, c)
      ensures |clients| == |old(clients)|
      ensures forall i :: 0 <= i < |clients| ==> clients[i].id == old(clients)[i].id
      ensures prospects == old(prospects) && sessions == old(sessions) && staff == old(staff)
      ensures userRole == old(userRole) && currentUser == old(currentUser) && activeSection == old(activeSection)
    {
      clients := ReplaceById(clients, ClientId, c);
      forall i | 0 <= i < |clients| ensures clients[i].id == old(clients)[i].id {
        ReplaceByIdKeepsKeys(old(clients), ClientId, c, i);
      }
    }

    /** `handleUpdateStaff`: replace every staff record carrying the id of `u`. */
    method UpdateStaff(u: User)
      modifies this
      ensures staff == ReplaceById(old(staff), UserId, u)
      ensures |staff| == |old(staff)|
      ensures forall i :: 0 <= i < |staff| ==> staff[i].id == old(staff)[i].id
      ensures prospects == old(prospects) && clients == old(clients) && sessions == old(sessions)
      ensures userRole == old(userRole) && currentUser == old(currentUser) && activeSection == old(activeSection)
    {
      staff := ReplaceById(staff, UserId, u);
      forall i | 0 <= i < |staff| ensures staff[i].id == old(staff)[i].id {
        ReplaceByIdKeepsKeys(old(staff), UserId, u, i);
      }
    }

    /** `handleDeleteStaff`: refused (and nothing changes) for the acting user's
        own id; otherwise every record with that id is removed. */
    method DeleteStaff(userId: int) returns (denied: bool)
      modifies this
      ensures denied <==> userId == currentUser.id
      ensures denied ==> staff == old(staff)
      ensures !denied ==> staff == Filter(old(staff), StaffWithoutId(userId))
      ensures forall u :: u in old(staff) && u.id == currentUser.id ==> u in staff
      ensures !denied ==> forall u :: u in staff ==> u in old(staff) && u.id != userId
      ensures prospects == old(prospects) && clients == old(clients) && sessions == old(sessions)
      ensures userRole == old(userRole) && currentUser == old(currentUser) && activeSection == old(activeSection)
    {
      denied := userId == currentUser.id;
      if !denied {
        staff := Filter(staff, StaffWithoutId(userId));
      }
    }
  }

  /** An administrator on the dashboard who becomes a coach lands on the
      pipeline, and the coach cannot delete their own staff record. */
  method RoleSwitchScenario(seedStaff: seq<User>)
  {
    var app := new App([], [], seedStaff);
    app.SetUserRole(Coach);
    assert app.activeSection == "/admin/dashboard";
    app.SyncRole();
    RoleSwitchResetsRoute();
    assert app.activeSection == "/coach/pipeline" && app.currentUser.id == 2;
    var denied := app.DeleteStaff(2);
    assert denied && app.staff == seedStaff;
  }
}
