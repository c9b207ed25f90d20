/** Records the CRM front-end keeps in memory, reduced to the fields that the
    role filter, the router and the collection handlers read or write. */
module CrmTypes {

  datatype Option<T> = None | Some(value: T)

  /** The two roles a signed-in user can hold. */
  datatype Role = Admin | Coach

  /** The fixed, ordered stages of the sales pipeline. */
  datatype ProspectStatus =
    | Lead | Contacted | MeetingScheduled | ProposalSent
    | Negotiation | ClosedWon | ClosedLost

  /** A prospect; `assignedCoachId` is an optional field and may be absent. */
  datatype Prospect = Prospect(
    id: int,
    name: string,
    email: string,
    status: ProspectStatus,
    starred: bool,
    assignedCoachId: Option<int>)

  /** A client; billing and programme details are not read by this layer. */
  datatype Client = Client(
    id: int,
    name: string,
    status: string,
    assignedCoachId: Option<int>)

  /** Sessions are stored untyped; only `clientId` is read, and it may be missing. */
  datatype Session = Session(id: int, clientId: Option<int>)

  /** A staff member, and also the acting user. Permissions are not modelled. */
  datatype User = User(
    id: int,
    name: string,
    email: string,
    phone: string,
    role: Role,
    isActive: bool,
    createdAt: string,
    specialties: seq<string>)

  function ClientId(c: Client): int { c.id }

  function UserId(u: User): int { u.id }
}
