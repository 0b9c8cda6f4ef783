# Role-based navigation and dashboard of an inventory web client

This project models the role-dependent core of an inventory-management web
client in Dafny. Users carry a list of role tokens: `ADMIN`, `MANAGER`,
`STAFF`, `VIEWER` or any other string. Two screen components decide from
these tokens what the user sees.

- **Sidebar** (`src/components/Sidebar/index.tsx`) has four parts:
  - a fixed tree of menu entries, each listing the roles allowed to see it;
  - a permission test;
  - a recursive walk that draws the permitted entries, opening the branches whose ids are in the list of opened menus;
  - two pieces of component state, the opened menus and the active item, updated by clicks; logout only clears the stored user.
- **Dashboard** (`src/components/DashboardComponent/index.tsx`) has five parts:
  - the welcome text chosen by the first role;
  - the list of quick actions built by successive appends;
  - the per-role user counts accumulated over all users;
  - the role-gated loading of the user list and its three outcomes (success, failure, thrown error);
  - which admin panels are shown.

Modules (one file each):

| file | module | contents |
|---|---|---|
| `accounts.dfy` | `Accounts` | `Option`, the `User` record, the browser-side `SessionStore` |
| `menu.dfy` | `Menu` | menu nodes, `HasPermission`, the render walk `RenderItem`/`RenderList`, the reference visibility predicate `Shown`, the lemmas tying them together and lemmas for rendering short sibling lists |
| `catalog.dfy` | `MenuCatalog` | the six-entry catalog with its children, and what a VIEWER or an ADMIN sees of it |
| `sidebar.dfy` | `Sidebar` | toggling of opened menus and the `SidebarState` class (initial state, click, logout) |
| `dashboard.dfy` | `Dashboard` | welcome text, quick actions, role statistics, user-list loading (`DashboardState` class), panel visibility |

Rendering is a pure function from the catalog and a `ViewState` (roles,
opened menus, active item) to a sequence of `Row`s. Each row holds the
node, its nesting level and the branch, open and active flags the row is
drawn with. The walk is specified independently by `Menu.Shown`. A node is
shown `depth` levels down exactly when every node on the way to it is
permitted and every ancestor is an opened branch. `Menu.RenderListShows`
proves the walk draws exactly those rows. The HTTP request of the user-list
load is replaced by a `UsersResponse` parameter supplied by the caller.

## Model

| member | source | states |
|---|---|---|
| Menu.HasPermission | src/components/Sidebar/index.tsx:39-41 | true exactly when some required role is among the user's roles; false when either list is empty |
| Menu.RenderListAppend | src/components/Sidebar/index.tsx:260 | rendering a concatenation of sibling lists renders each list in turn, so siblings keep catalog order |
| Menu.RenderItemWellFormed | src/components/Sidebar/index.tsx:203-238 | every row drawn for a node is at its level or deeper, carries its node's branch/open/active flags, and shows a node of that subtree |
| Menu.RenderListWellFormed | src/components/Sidebar/index.tsx:235 | the same for a list of siblings |
| Menu.RenderItemShows | src/components/Sidebar/index.tsx:203-238 | the row of `n` is drawn `depth` levels below a node exactly when `n` and every ancestor of `n`, from that node down, are permitted, and every ancestor is an opened branch |
| Menu.RenderListShows | src/components/Sidebar/index.tsx:235 | the same for a list of siblings: drawn exactly when shown under one of them |
| Menu.ShowsHere | src/components/Sidebar/index.tsx:204-208 | at a node's own level only that node's row can appear, and only when it is permitted |
| Menu.ShowsBelow | src/components/Sidebar/index.tsx:235 | rows below a node's level come only from its children, and only when it is a permitted, opened branch |
| Menu.TopLevelRowsArePermittedItems | src/components/Sidebar/index.tsx:260 | the rows at the starting level are exactly the permitted top-level nodes, in catalog order |
| Menu.PrunedNodeContributesNothing | src/components/Sidebar/index.tsx:204 | a node the user may not see is pruned with its whole subtree: deleting it from the list changes nothing drawn |
| Menu.NoRolesNoRows | src/components/Sidebar/index.tsx:39-41 | a user without roles is drawn an empty menu |
| MenuCatalog.LandingIsLeaf | src/components/Sidebar/index.tsx:26 | the initially active id "dashboard" is a leaf of the catalog |
| MenuCatalog.ViewerSeesOnlyDashboard | src/components/Sidebar/index.tsx:43-201 | with roles ["VIEWER"] the menu is the single dashboard row, whatever menus are open |
| MenuCatalog.AdminSeesEveryTopLevelEntry | src/components/Sidebar/index.tsx:43-201 | with roles ["ADMIN"] the top-level rows are all six entries in catalog order |
| MenuCatalog.AdminWithUserManagementOpen | src/components/Sidebar/index.tsx:43-201 | with roles ["ADMIN"] and "user-management" open, the exact nine rows: six entries plus the three user-management children at level 1 right after their parent |
| Sidebar.Without | src/components/Sidebar/index.tsx:36 | filtering keeps exactly the other ids, never adds a duplicate, and changes nothing when the id is absent |
| Sidebar.Toggled | src/components/Sidebar/index.tsx:35-37 | toggling flips whether the id is listed, keeps every other id's membership and never creates a duplicate |
| Sidebar.ToggleTwice | src/components/Sidebar/index.tsx:35-37 | toggling an id twice restores its membership, and restores the whole list when the id was absent |
| Sidebar.WithoutAppended | src/components/Sidebar/index.tsx:36 | appending an absent id and filtering it out gives back the original list |
| Sidebar.SidebarState.constructor | src/components/Sidebar/index.tsx:26-27 | the active item starts as "dashboard" and no menu is open; the state invariant holds |
| Sidebar.SidebarState.ToggleMenu | src/components/Sidebar/index.tsx:35-37 | the opened menus become the toggled list; the active item is unchanged; the invariant (no duplicates, active item a catalog leaf) is kept |
| Sidebar.SidebarState.Click | src/components/Sidebar/index.tsx:218-226 | clicking a drawn branch toggles it and keeps the active item; clicking a drawn leaf makes it active and keeps the opened menus; the active item stays a catalog leaf |
| Sidebar.SidebarState.Logout | src/components/Sidebar/index.tsx:30-33 | the stored user is removed and the target is "/"; the sidebar state is left unchanged |
| Accounts.SessionStore.RemoveUser | src/lib/api.js:105-107 | the stored user is absent afterwards |
| Dashboard.WelcomeMessage | src/components/DashboardComponent/index.tsx:87-102 | the generic text exactly when there is no role or the first role is not one of the four known tokens; otherwise the known token's own message |
| Dashboard.WelcomeDependsOnFirstRoleOnly | src/components/DashboardComponent/index.tsx:100-101 | two role lists with the same first role get the same text |
| Dashboard.WelcomeAsWrittenInheritedKey | src/components/DashboardComponent/index.tsx:88-101 | as written, the first role "constructor" yields an inherited function and "__proto__" an object, where the generic text is intended |
| Dashboard.WelcomeAsWrittenAgrees | src/components/DashboardComponent/index.tsx:88-101 | for every first role that is not an inherited member name, the code as written yields exactly the text of `WelcomeMessage` |
| Dashboard.LabelsDistinct | src/components/DashboardComponent/index.tsx:109-140 | different quick actions have different labels |
| Dashboard.IncreasingLabelsDistinct | src/components/DashboardComponent/index.tsx:104-143 | a list of actions in the fixed order repeats no label |
| Dashboard.ActionGroupsMembers | src/components/DashboardComponent/index.tsx:118-140 | the appended groups end with "View Inventory", have 1 to 6 entries, and contain each group's actions exactly when that group is chosen |
| Dashboard.ActionGroupsOrdered | src/components/DashboardComponent/index.tsx:118-140 | the appended groups list the actions in the fixed order |
| Dashboard.ActionGroupsMeet | src/components/DashboardComponent/index.tsx:118-140 | the groups a user's roles choose meet every promise of the listing: role conditions, order, end and distinct labels |
| Dashboard.QuickActions | src/components/DashboardComponent/index.tsx:104-143 | ends with "View Inventory", has 1 to 6 entries, is exactly ["View Inventory"] for no roles, contains each action exactly when the user holds one of its roles, keeps the fixed order and repeats no label |
| Dashboard.RoleStats | src/components/DashboardComponent/index.tsx:145-162 | four entries in the order ADMIN, MANAGER, STAFF, VIEWER, each counting the occurrences of its token across all users' role lists |
| Dashboard.OccurrencesAppend | src/components/DashboardComponent/index.tsx:147-154 | the counts over two groups of users add up |
| Dashboard.UninvolvedUserAddsNothing | src/components/DashboardComponent/index.tsx:148-151 | a user without the token (role-less, or holding only other tokens) adds nothing to its count |
| Dashboard.CountAbsent | src/components/DashboardComponent/index.tsx:149-150 | a token absent from a role list is counted zero times there |
| Dashboard.ThrownDetail | src/components/DashboardComponent/index.tsx:61 | an Error gives its message; any other thrown value gives its non-empty server message, or "Failed to load users" when that is missing or empty; only an Error with an empty message gives an empty detail |
| Dashboard.VisiblePanels | src/components/DashboardComponent/index.tsx:305 | the role-distribution panel (line 267) shows exactly for ADMIN or MANAGER; the user list additionally needs a non-empty user list |
| Dashboard.DashboardState.constructor | src/components/DashboardComponent/index.tsx:17-20 | no users, loading, and an empty error message at first |
| Dashboard.DashboardState.LoadUsers | src/components/DashboardComponent/index.tsx:35-66 | without a user nothing changes; without ADMIN or MANAGER the list is emptied, loading ends and no request is made; otherwise loading ends and success replaces the list, while failure or a thrown value keeps it and sets the matching error message |
| Dashboard.DashboardState.Refresh | src/components/DashboardComponent/index.tsx:68-70 | reloads for the current user, with the whole new state of `LoadUsers`: nothing changes without a user; without ADMIN or MANAGER the list is emptied and loading ends with no request; otherwise loading ends and success replaces the list, while failure or a thrown value keeps it and sets the matching error message |

## Left out

- Empty role list: the sidebar draws an empty menu. No default entry is synthesised, because the code has none.
- Toggling: ids are not validated, so an unknown id is appended like any other, as the code does.
- Logout: it does not reset the sidebar's opened menus or active item. The code has no reset operation.
- Rendering details are not modelled: icons, colours, CSS classes and the header with the user name and role badges. Each entry's label is kept, as the node's `title` (`label` is a reserved word in Dafny). Only which rows are drawn, their order, nesting level and the branch/open/active flags are kept.
- Navigation and logging: the leaf click's `console.log` of the path and the router push are not modelled. Logout returns the target path "/" instead of navigating.
- Dashboard mount: the `useEffect` that reads the stored user and redirects to "/" when there is none is not modelled. The page is modelled from a present or absent current user, through the constructor and `LoadUsers`.
- Loading screen: the spinner shown while loading without a user is left out.
- HTTP: the request in `src/lib/api.js`, its 401 interceptor and the `localStorage` wrappers are I/O. The request's outcome is a `UsersResponse` parameter, and the stored user is the `SessionStore` field.
- Concurrency: overlapping asynchronous loads (a refresh while a load is pending) are not modelled. Each `LoadUsers` call runs to completion.
- Missing `roles`: a user record without a `roles` field is represented with an empty role list. The dashboard's own guards treat both alike.
- Menu.NoRolesNoRows: for a stored record without a `roles` field, the dashboard passes the record to the sidebar unchanged, and the sidebar's `roles.includes` and `roles.map` throw, so the page fails. The model represents such a record with an empty role list and draws an empty menu instead; the throw is not modelled.
- Sidebar user: `Sidebar.SidebarState` keeps its user as a constant. New props with a different user are not modelled.
- Dashboard.QuickActions: each action's icon and colour are omitted. Its label (`Label`) and description are kept.
- Dashboard.QuickActions: the three role tests are computed once before the appends. The code repeats the same `includes` calls inside each condition, which gives the same result because the roles do not change.
- Dashboard.RoleStats: the colour of each entry is omitted.
- Dashboard.RoleStats: the accumulator is an object literal, so a role token named like an inherited member ("constructor", "__proto__") corrupts that token's entry. The model uses a map and does not reproduce this. It affects only tokens other than the four reported ones, so the reported counts are unaffected.
- Dashboard.DashboardState.LoadUsers: the intermediate `loading = true` while the request is pending is not observable in the model. Only the final state is stated. A success does not clear an earlier error message, and the model keeps this.
- Dashboard: the hard-coded statistic tiles and the formatted creation date in the user list are left out.

## Findings

| source | as written | input that shows it | evidently intended | confidence | as-written member | corrected member |
|---|---|---|---|---|---|---|
| src/components/DashboardComponent/index.tsx:101 | the welcome table is an object literal indexed with the first role, and a truthy result is returned; inherited members of the object are found too | roles `["constructor"]` gives the inherited function instead of a text; roles `["__proto__"]` gives an object | a first role that is not one of the four known tokens gives the generic welcome text | not executed; medium (the lookup semantics are standard JavaScript, and role tokens come from the server) | Dashboard.WelcomeAsWrittenInheritedKey | Dashboard.WelcomeMessage |
