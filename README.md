# CoachCRM access control and routing, in Dafny

CoachCRM is a single-page CRM for a coaching business. Its application component holds
prospects, clients, sessions and staff in memory, and it serves two roles: an
administrator and a coach. Most of the component is markup. This project models the
part that decides things:

- **Role-based data filter** (`getFilteredData`, module `RoleFilter`). An administrator
  sees every collection unchanged. A coach sees:
  - the prospects and clients assigned to them;
  - the sessions whose client is assigned to them, where the client is the first
    one with that id in the unfiltered client list;
  - the staff records that carry their own id.
- **Route dispatcher** (`renderMainContent` and `getPageTitle`, module `Routing`). A
  route under `/admin/` or `/coach/` is checked against the role first, then its
  segment is matched exactly. The segment names are French: `calendrier`, `seances`,
  `facturation`, `equipe`. The route `403` shows the access-denied view. Any route outside
  both namespaces other than `403` and `404` falls back to the role's landing page and
  writes that route back while rendering. The not-found branches (an unlisted segment in
  the role's own namespace, and `404`) return a component the file never declares; see
  "Findings". `SelectView` models the dispatcher with that component present, and
  `SelectViewAsWritten` models it as written.
- **Role-sync effect** (module `RoleSync`). It derives the acting user from the role:
  id 1 for an administrator, id 2 for a coach. It also moves a route outside the role's
  namespace to the landing route.
- **Component state and handlers** (module `CrmApp`, class `App`):
  - appending prospects, clients, sessions and staff;
  - replacing a client or a staff record by id;
  - deleting staff by id, which is refused for the acting user's own id;
  - navigation, the profile button, the role setter, the effect, and rendering.

`SeqOps` holds the two array operations the component is built from: `filter`, and
the keyed replacement written with `map`. `CrmTypes` holds the records, reduced to
the fields this layer reads.

Notes on the code:

- The coach's staff view keeps every staff record whose id is the acting user's. It
  is not a singleton of the acting user. With unique ids it has at most one element
  (`CoachStaffAtMostOne`).
- No page ever receives the filtered staff list. A coach's pages get the filtered
  prospects, clients and sessions, but the full `staff` array (`PageData`).
- `route.replace('/admin/', '')` replaces only the first occurrence. On a route that
  starts with the prefix, that is exactly the text after it (`StripPrefix`).
- Sessions are stored untyped. A session without a `clientId` finds no client, so
  no coach sees it.

## Model

| member | source | states |
|---|---|---|
| `SeqOps.Filter` | project/src/App.tsx:483-489 | the filtered sequence holds only elements of the input that pass, holds every passing element, and is no longer than the input |
| `SeqOps.FilterIsSubsequence` | project/src/App.tsx:483-489 | a filtered collection keeps the original order: it is a subsequence of the input |
| `SeqOps.FilterCount` | project/src/App.tsx:483-489 | filtering keeps every occurrence of a passing element and drops every other element |
| `SeqOps.FilterSnoc` | project/src/App.tsx:409-423 | appending one element grows the filtered view by that element exactly when it passes |
| `SeqOps.ReplaceById` | project/src/App.tsx:403-405 | the keyed replacement written with `map` preserves length |
| `SeqOps.ReplaceByIdKeepsKeys` | project/src/App.tsx:426-428 | replacement never changes which id sits at which position |
| `SeqOps.ReplaceByIdPresent` | project/src/App.tsx:403-405 | the new record ends up in the collection exactly when some record already carried its id |
| `SeqOps.ReplaceByIdAbsent` | project/src/App.tsx:426-428 | with no record carrying the id, the update changes nothing |
| `SeqOps.ReplaceByIdIdempotent` | project/src/App.tsx:403-405 | applying the same update twice is the same as applying it once |
| `RoleFilter.FindClient` | project/src/App.tsx:486 | `find` returns nothing exactly when no client has the id; otherwise it returns the client at the first position with that id |
| `RoleFilter.FilteredData` | project/src/App.tsx:472-492 | an administrator gets the four collections unchanged; a coach gets exactly the prospects and clients assigned to them, the sessions whose client lookup is theirs, and the staff with their id |
| `RoleFilter.SessionVisibleIff` | project/src/App.tsx:485-488 | a session is visible to a coach exactly when it has a `clientId` and the first client with that id is assigned to the coach |
| `RoleFilter.UnresolvedSessionHidden` | project/src/App.tsx:486-487 | a session whose `clientId` matches no client is hidden from every coach |
| `RoleFilter.SessionVisibleWithUniqueIds` | project/src/App.tsx:485-488 | with unique client ids, a session is visible exactly when some client with its id is assigned to the coach |
| `RoleFilter.CoachSessionsHaveVisibleClient` | project/src/App.tsx:484-488 | every session a coach sees has its client among the clients that coach sees |
| `RoleFilter.CoachViewIsOrderedRestriction` | project/src/App.tsx:482-490 | the coach's four collections are subsequences of the inputs, and the prospects and clients keep every assigned record with its multiplicity and drop every other record |
| `RoleFilter.CoachStaffAtMostOne` | project/src/App.tsx:489 | with unique staff ids, a coach sees at most one staff record |
| `Routing.IndexOfFrom` | project/src/App.tsx:529 | `indexOf` returns the first position where the pattern occurs, or nothing when it occurs nowhere |
| `Routing.RequireAdmin` | project/src/App.tsx:497-499 | of the two roles, only a coach is refused |
| `Routing.ReplaceFirst` | project/src/App.tsx:529 | `replace` with a string pattern leaves the string unchanged when the pattern occurs nowhere; otherwise it replaces the first occurrence only (the coach branch makes the same call at line 600) |
| `Routing.StripPrefix` | project/src/App.tsx:529 | on a route that starts with the prefix, replacing the prefix's first occurrence with `''` leaves exactly the text after the prefix |
| `Routing.SelectView` | project/src/App.tsx:522-678 | a route under `/admin/` is denied to a non-administrator, and a route under `/coach/` to a non-coach; a redirect happens exactly for routes outside both namespaces other than `403` and `404`, and it goes to the role's landing route; a page gets the full data exactly for an administrator |
| `Routing.PageTitle` | project/src/App.tsx:502-520 | a mapped route gets its mapped title; the title is `Page non trouvée` exactly for unmapped routes |
| `Routing.NamespaceSegments` | project/src/App.tsx:530-591 | the administrator namespace lists 8 segments and the coach namespace 6; the coach's are a strict subset, missing only `dashboard` and `equipe` |
| `Routing.OwnNamespaceRoutes` | project/src/App.tsx:595-643 | in the role's own namespace, a listed segment renders its page with the role's data, without a redirect; any other segment selects the not-found view, which the code as written cannot render (see Findings) |
| `Routing.FallbackRoutes` | project/src/App.tsx:646-677 | outside both namespaces, `403` is denied and `404` selects the not-found view (which the code as written cannot render; see Findings); anything else redirects to the landing route and renders exactly what the landing route renders |
| `Routing.LandingRendersDirectly` | project/src/App.tsx:531-676 | each role's landing route renders its landing page (the dashboard, or the pipeline) with the role's data and no redirect |
| `Routing.NotFoundRoutes` | project/src/App.tsx:589-651 | the not-found view is selected exactly for an unlisted segment in the role's own namespace and for `404` |
| `Routing.AdminNamespaceGuard` | project/src/App.tsx:524-527 | under `/admin/`, access is denied exactly when `requireAdmin()` fails |
| `Routing.SelectViewAsWritten` | project/src/App.tsx:522-678 | the dispatcher as written fails exactly where the corrected one selects the not-found view, and agrees with it everywhere else |
| `Routing.AsWrittenRenderFails` | project/src/App.tsx:589-651 | as written, rendering fails exactly on an unlisted segment of the role's own namespace and on `404`; an administrator on `/admin/foo` is one such input |
| `Routing.AdminSegmentTitle` | project/src/App.tsx:504-511 | each administrator segment has a title entry equal to the label of the page it selects |
| `Routing.CoachSegmentTitle` | project/src/App.tsx:512-517 | each coach segment has a title entry equal to the label of the page it selects |
| `Routing.SplitTitledRoute` | project/src/App.tsx:503-518 | every titled route is a namespace prefix followed by a segment listed for that namespace |
| `Routing.TitleAgreesWithView` | project/src/App.tsx:722 | a route that renders a page without redirecting has a title, and the title is that page's label |
| `Routing.TitledRoutesRender` | project/src/App.tsx:502-520 | every titled route lies in a namespace and renders its page for the role owning that namespace |
| `RoleSync.ProfileFor` | project/src/App.tsx:367-377 | the derived acting user has the role itself, and id 1 for an administrator, 2 for a coach |
| `RoleSync.SyncedSection` | project/src/App.tsx:380-385 | after the redirect the route starts with the role's prefix; a route already in the namespace is kept, and any other becomes the landing route |
| `RoleSync.Effect` | project/src/App.tsx:366-386 | after the effect the acting user has the role's id and role, and the route lies in the role's namespace |
| `RoleSync.EffectIdempotent` | project/src/App.tsx:366-386 | the effect reaches its fixpoint in one run |
| `RoleSync.EffectFixpointIff` | project/src/App.tsx:366-386 | the effect leaves a state unchanged exactly when the user already matches the role and the route is in the role's namespace |
| `RoleSync.SettledStateRendersDirectly` | project/src/App.tsx:381-385 | once the effect has run, rendering neither denies access nor redirects |
| `RoleSync.RenderRedirectAgreesWithEffect` | project/src/App.tsx:652-676 | the redirect written during rendering goes where the effect would send the route |
| `RoleSync.BareRoutesRedirected` | project/src/App.tsx:381-385 | `403`, `404` and `settings` are always moved to the landing route by the effect |
| `RoleSync.RoleSwitchResetsRoute` | project/src/App.tsx:381-385 | an administrator on `/admin/dashboard` who becomes a coach is moved to `/coach/pipeline`, and the reverse |
| `RoleSync.ProfileClickNeverShowsSettings` | project/src/App.tsx:454-457 | the bare `settings` route written by the profile button renders the landing page, not settings, and the effect replaces it |
| `RoleSync.SettingsRoute` | project/src/App.tsx:579-588 | the corrected profile route lies in the role's namespace |
| `RoleSync.SettingsRouteShowsSettings` | project/src/App.tsx:631-640 | the corrected profile route renders the settings page with the role's data and the title `Paramètres`, and the effect keeps it |
| `CrmApp.PageData` | project/src/App.tsx:602-640 | administrator pages get the full collections; coach pages get the filtered prospects, clients and sessions with the full staff list, and for a coach those are exactly the coach's prospects, clients and sessions, each in its original order |
| `CrmApp.DeleteByIdSpec` | project/src/App.tsx:436 | deleting by id removes every record with that id and keeps every other record, with its multiplicity and in order |
| `CrmApp.AddProspectVisibility` | project/src/App.tsx:409-411 | adding a prospect grows a coach's pipeline by it exactly when it is assigned to the coach |
| `CrmApp.CreateSessionVisibility` | project/src/App.tsx:417-419 | creating a session grows a coach's sessions by it exactly when its client lookup belongs to the coach |
| `CrmApp.AddClientVisibility` | project/src/App.tsx:413-415 | adding a client grows a coach's clients by it exactly when it is assigned to the coach |
| `CrmApp.CoachExample` | project/src/App.tsx:483-489 | coach 2 sees client 10 and session 100, and session 101, whose client does not exist, is hidden |
| `CrmApp.App.constructor` | project/src/App.tsx:121-144 | the component starts as the administrator on `/admin/dashboard`, with no sessions, and in a state the effect leaves alone |
| `CrmApp.App.GetFilteredData` | project/src/App.tsx:472-494 | on the current state it is the role filter: the administrator sees the collections unchanged, and a coach sees exactly their prospects, their clients, the sessions whose client lookup is theirs, and the staff records with their id |
| `CrmApp.App.SyncRole` | project/src/App.tsx:366-386 | the effect on the state: the acting user becomes the role's profile, the route becomes the synced route, the collections are untouched, and a settled state is left unchanged |
| `CrmApp.App.SetUserRole` | project/src/App.tsx:449 | the role setter changes only the role |
| `CrmApp.App.Navigate` | project/src/App.tsx:700 | the sidebar's route setter changes only the route |
| `CrmApp.App.ProfileClick` | project/src/App.tsx:454-457 | the profile button sets the route to `settings` and changes nothing else |
| `CrmApp.App.RenderMainContent` | project/src/App.tsx:522-678 | rendering returns the selected view and the data its page receives, writes back only the fallback redirect, and in a settled state neither redirects nor denies access; a not-found route yields the not-found view of the corrected dispatcher (see Findings) |
| `CrmApp.App.AddProspect` | project/src/App.tsx:409-411 | appends the prospect at the end and changes nothing else |
| `CrmApp.App.AddClient` | project/src/App.tsx:413-415 | appends the client at the end and changes nothing else |
| `CrmApp.App.CreateSession` | project/src/App.tsx:417-419 | appends the session at the end and changes nothing else |
| `CrmApp.App.AddStaff` | project/src/App.tsx:421-423 | appends the staff record at the end and changes nothing else |
| `CrmApp.App.UpdateClient` | project/src/App.tsx:402-407 | replaces every client with the id of the update, keeps the length and the id at each position, and changes nothing else |
| `CrmApp.App.UpdateStaff` | project/src/App.tsx:425-429 | replaces every staff record with the id of the update, keeps the length and the id at each position, and changes nothing else |
| `CrmApp.App.DeleteStaff` | project/src/App.tsx:431-437 | refused, with no change, exactly for the acting user's own id; otherwise removes every record with that id; the acting user's own records always survive |

## Left out

- Login and logout (`LoginPage`, `handleLogin`, `handleLogout`, `isAuthLoading`): the login waits on a timer and checks no credentials. Only the role setter the timer calls is modelled (`App.SetUserRole`). The login form also passes `'admin' | 'coach'` where the handler expects `'ADMIN' | 'COACH'`; that is not modelled.
- Theme and density handlers: they toggle classes on the document, which is a DOM side effect.
- Selection state (`handleSelectProspect`, `handleSelectClient`, `handleCloseDetail`, and the `setSelectedClient` call in `handleUpdateClient`), and the menu and sidebar open flags: these are UI toggles.
- The `alert` in `handleDeleteStaff`: it becomes the `denied` result.
- Markup and the page components: a view is a tag (`Page`, `DataScope`). The components' own files are not part of this model. That includes what `SessionsPage` does with the `setSessions` it receives.
- Permissions (`DEFAULT_PERMISSIONS`), the seed data contents, and the billing and invoice records. The filter never reads them. Seed collections are constructor parameters.
- React's scheduling: the effect, the render and the handlers are separate methods, and a caller chooses their order. Re-renders are not modelled.
- `CrmApp.App.AddProspect`, `CrmApp.App.AddClient`, `CrmApp.App.CreateSession`, `CrmApp.App.AddStaff`, `CrmApp.App.UpdateClient`, `CrmApp.App.UpdateStaff`, `CrmApp.App.DeleteStaff`: each method builds the new list from the current field, so two calls in a row keep both updates. The handlers build the new array from the state captured at the last render, with no functional update (App.tsx:403, 410, 414, 418, 422, 426, 436). So when two of them run in one event before a re-render, only the last update survives. The model does not capture that lost update.
- `Routing.PageTitle`: does not model JavaScript's inherited object keys. For a route such as `toString`, `routeMap[route]` yields a function rather than the default title.

## Findings

| source | as written | input that shows it | evidently intended | confidence | as-written member | corrected member |
|---|---|---|---|---|---|---|
| project/src/App.tsx:455 | the profile button sets the route to `settings`, which lies in no namespace | either role clicks "Mon profil": rendering falls back to the dashboard or pipeline, and the effect moves the route there too | open the role's settings page (`/admin/settings` or `/coach/settings`) | not executed; high from reading the code | `RoleSync.ProfileClickNeverShowsSettings` | `RoleSync.SettingsRouteShowsSettings` |
| project/src/App.tsx:590 | the not-found branches (lines 590, 642 and 651) return `<NotFoundPage />`, but the file neither imports nor declares `NotFoundPage` (imports at lines 1-16) | an administrator on `/admin/foo`, a coach on `/coach/dashboard`, or either role on `404`: rendering throws a ReferenceError instead of showing a page | show a not-found page for those routes | not executed; high from reading the code | `Routing.AsWrittenRenderFails` | `Routing.NotFoundRoutes` |
