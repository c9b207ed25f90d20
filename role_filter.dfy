/** The role-based data filter (`getFilteredData`): an administrator sees every
    collection as it is, a coach sees only the records assigned to them. */
module RoleFilter {
  import opened CrmTypes
  import opened SeqOps

  /** The four collections the filter reads and returns. */
  datatype Collections = Collections(
    prospects: seq<Prospect>,
    clients: seq<Client>,
    sessions: seq<Session>,
    staff: seq<User>)

  /** Position `i` holds the first client whose id is `id`. */
  predicate IsFirstMatch(clients: seq<Client>, id: int, i: int) {
    0 <= i < |clients| && clients[i].id == id &&
    forall j :: 0 <= j < i ==> clients[j].id != id
  }

  /** `clients.find(c => c.id === id)`: the first client with that id, if any. */
  function FindClient(clients: seq<Client>, id: int): (r: Option<Client>)
    ensures r.None? <==> forall i :: 0 <= i < |clients| ==> clients[i].id != id
    ensures r.Some? ==> exists i :: IsFirstMatch(clients, id, i) && clients[i] == r.value
  {
    if clients == [] then None
    else if clients[0].id == id then
      assert IsFirstMatch(clients, id, 0);
      Some(clients[0])
    else
      var r := FindClient(clients[1..], id);
      if r.Some? then
        var k :| IsFirstMatch(clients[1..], id, k) && clients[1..][k] == r.value;
        assert IsFirstMatch(clients, id, k + 1);
        r
      else r
  }

  /** There is only one first match. */
  lemma FirstMatchUnique(clients: seq<Client>, id: int, i: int, j: int)
    requires IsFirstMatch(clients, id, i) && IsFirstMatch(clients, id, j)
    ensures i == j
  {
  }

  function ProspectOwnedBy(coachId: int): Prospect -> bool {
    (p: Prospect) => p.assignedCoachId == Some(coachId)
  }

  function ClientOwnedBy(coachId: int): Client -> bool {
    (c: Client) => c.assignedCoachId == Some(coachId)
  }

  /** A session is visible when its `clientId` finds, in the unfiltered client
      list, a client assigned to the coach; a failed lookup hides it. */
  function SessionOwnedBy(clients: seq<Client>, coachId: int): Session -> bool {
    (s: Session) => match s.clientId
         case None => false
         case Some(k) =>
           match FindClient(clients, k)
           case None => false
           case Some(c) => c.assignedCoachId == Some(coachId)
  }

  function StaffWithId(userId: int): User -> bool {
    (u: User) => u.id == userId
  }

  /** `getFilteredData()` for the acting user `user`. */
  function FilteredData(user: User, all: Collections): (v: Collections)
    ensures user.role == Admin ==> v == all
    ensures user.role == Coach ==>
      && (forall p :: p in v.prospects <==> p in all.prospects && p.assignedCoachId == Some(user.id))
      && (forall c :: c in v.clients <==> c in all.clients && c.assignedCoachId == Some(user.id))
      && (forall s :: s in v.sessions <==> s in all.sessions && SessionOwnedBy(all.clients, user.id)(s))
      && (forall u :: u in v.staff <==> u in all.staff && u.id == user.id)
  {
    if user.role == Admin then all
    else
      Collections(
        Filter(all.prospects, ProspectOwnedBy(user.id)),
        Filter(all.clients, ClientOwnedBy(user.id)),
        Filter(all.sessions, SessionOwnedBy(all.clients, user.id)),
        Filter(all.staff, StaffWithId(user.id)))
  }

  /** A coach sees a session exactly when its `clientId` is present and the
      FIRST client carrying that id in the unfiltered list is theirs. */
  lemma SessionVisibleIff(clients: seq<Client>, coachId: int, s: Session)
    ensures SessionOwnedBy(clients, coachId)(s) <==>
      s.clientId.Some? &&
      exists i :: IsFirstMatch(clients, s.clientId.value, i) && clients[i].assignedCoachId == Some(coachId)
  {
    if s.clientId.Some? {
      var k := s.clientId.value;
      if i :| IsFirstMatch(clients, k, i) && clients[i].assignedCoachId == Some(coachId) {
        var r := FindClient(clients, k);
        assert r.Some?;
        var j :| IsFirstMatch(clients, k, j) && clients[j] == r.value;
        FirstMatchUnique(clients, k, i, j);
      }
    }
  }

  /** A session whose `clientId` names no client is hidden from every coach. */
  lemma UnresolvedSessionHidden(clients: seq<Client>, coachId: int, s: Session)
    requires s.clientId.Some?
    requires forall i :: 0 <= i < |clients| ==> clients[i].id != s.clientId.value
    ensures !SessionOwnedBy(clients, coachId)(s)
  {
  }

  predicate UniqueClientIds(clients: seq<Client>) {
    forall i, j :: 0 <= i < j < |clients| ==> clients[i].id != clients[j].id
  }

  /** When client ids are unique, a session belongs to a coach exactly when its
      parent client does: the "first match" of the lookup no longer matters. */
  lemma SessionVisibleWithUniqueIds(clients: seq<Client>, coachId: int, s: Session)
    requires UniqueClientIds(clients)
    ensures SessionOwnedBy(clients, coachId)(s) <==>
      exists c :: c in clients && s.clientId == Some(c.id) && c.assignedCoachId == Some(coachId)
  {
    SessionVisibleIff(clients, coachId, s);
    if c :| c in clients && s.clientId == Some(c.id) && c.assignedCoachId == Some(coachId) {
      var i :| 0 <= i < |clients| && clients[i] == c;
      assert IsFirstMatch(clients, c.id, i);
    }
  }

  /** Every session a coach sees has its client among the clients that coach sees. */
  lemma CoachSessionsHaveVisibleClient(user: User, all: Collections, s: Session)
    requires user.role == Coach
    requires s in FilteredData(user, all).sessions
    ensures exists c :: c in FilteredData(user, all).clients && s.clientId == Some(c.id)
  {
    var v := FilteredData(user, all);
    var k := s.clientId.value;
    var r := FindClient(all.clients, k);
    var i :| IsFirstMatch(all.clients, k, i) && all.clients[i] == r.value;
    assert r.value in all.clients;
    assert r.value in v.clients;
  }

  /** The coach's collections keep the original order (they are subsequences of
      the inputs) and keep every occurrence of a visible record. */
  lemma CoachViewIsOrderedRestriction(user: User, all: Collections)
    requires user.role == Coach
    ensures var v := FilteredData(user, all);
      && IsSubsequence(v.prospects, all.prospects)
      && IsSubsequence(v.clients, all.clients)
      && IsSubsequence(v.sessions, all.sessions)
      && IsSubsequence(v.staff, all.staff)
    ensures var v := FilteredData(user, all);
      && (forall p :: multiset(v.prospects)[p] == if p.assignedCoachId == Some(user.id) then multiset(all.prospects)[p] else 0)
      && (forall c :: multiset(v.clients)[c] == if c.assignedCoachId == Some(user.id) then multiset(all.clients)[c] else 0)
  {
    FilterIsSubsequence(all.prospects, ProspectOwnedBy(user.id));
    FilterIsSubsequence(all.clients, ClientOwnedBy(user.id));
    FilterIsSubsequence(all.sessions, SessionOwnedBy(all.clients, user.id));
    FilterIsSubsequence(all.staff, StaffWithId(user.id));
    forall p: Prospect
      ensures multiset(FilteredData(user, all).prospects)[p] ==
        if p.assignedCoachId == Some(user.id) then multiset(all.prospects)[p] else 0
    {
      FilterCount(all.prospects, ProspectOwnedBy(user.id), p);
    }
    forall c: Client
      ensures multiset(FilteredData(user, all).clients)[c] ==
        if c.assignedCoachId == Some(user.id) then multiset(all.clients)[c] else 0
    {
      FilterCount(all.clients, ClientOwnedBy(user.id), c);
    }
  }

  predicate UniqueUserIds(staff: seq<User>) {
    forall i, j :: 0 <= i < j < |staff| ==> staff[i].id != staff[j].id
  }

  /** With unique staff ids a coach sees at most one staff record: their own. */
  lemma {:induction false} CoachStaffAtMostOne(staff: seq<User>, userId: int)
    requires UniqueUserIds(staff)
    ensures |Filter(staff, StaffWithId(userId))| <= 1
  {
    if staff != [] {
      var rest := staff[1..];
      assert UniqueUserIds(rest);
      if staff[0].id == userId {
        forall j | 0 <= j < |rest| ensures !StaffWithId(userId)(rest[j]) {
          assert rest[j] == staff[j + 1];
        }
        FilterNonePass(rest, StaffWithId(userId));
      } else {
        CoachStaffAtMostOne(rest, userId);
      }
    }
  }
}
