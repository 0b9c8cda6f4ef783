/** The role-dependent parts of the dashboard page: the welcome message, the
    quick-action list, the per-role user counts, the gated loading of the
    user list and which admin panels are shown. */
module Dashboard {
  import opened Accounts

  /** The four role tokens the dashboard knows, in the order it reports them. */
  const TrackedRoles: seq<string> := ["ADMIN", "MANAGER", "STAFF", "VIEWER"]

  /** Whether the user may see the list of all users. */
  predicate CanViewUsers(roles: seq<string>) {
    "ADMIN" in roles || "MANAGER" in roles
  }

  // ---------------------------------------------------------------------
  // Welcome message

  const GenericWelcome := "Welcome to the inventory management system."

  const AdminWelcome := "You have full system access and can manage all aspects of the inventory system."
  const ManagerWelcome := "You can manage inventory, suppliers, and view reports."
  const StaffWelcome := "You can update stock levels and view inventory items."
  const ViewerWelcome := "You have read-only access to view inventory information."

  /** The own entries of the welcome-message table, keyed by role token. */
  function RoleMessage(role: string): Option<string> {
    match role
    case "ADMIN" => Some(AdminWelcome)
    case "MANAGER" => Some(ManagerWelcome)
    case "STAFF" => Some(StaffWelcome)
    case "VIEWER" => Some(ViewerWelcome)
    case _ => None
  }

  /** The welcome text: the message for the first role when the table has
      one, the generic text otherwise (also when the user has no role). */
  function WelcomeMessage(roles: seq<string>): (m: string)
    ensures m == GenericWelcome <==> roles == [] || roles[0] !in TrackedRoles
    ensures roles != [] && roles[0] in TrackedRoles ==> Some(m) == RoleMessage(roles[0])
  {
    if roles == [] then GenericWelcome
    else match RoleMessage(roles[0])
      case Some(msg) => msg
      case None => GenericWelcome
  }

  /** The welcome text depends on the first role only. */
  lemma WelcomeDependsOnFirstRoleOnly(roles: seq<string>, others: seq<string>)
    requires roles != [] && others != [] && roles[0] == others[0]
    ensures WelcomeMessage(roles) == WelcomeMessage(others)
  {
  }

  /** A JavaScript value as far as the welcome lookup can see it: a string, a
      function, an object, or undefined. */
  datatype JsValue = JsString(text: string) | JsFunction(name: string) | JsObject | Undefined

  predicate Truthy(x: JsValue) {
    match x
    case JsString(text) => text != ""
    case JsFunction(_) => true
    case JsObject => true
    case Undefined => false
  }

  /** The members every object literal inherits from Object.prototype. */
  const InheritedMembers: set<string> := {
    "constructor", "hasOwnProperty", "isPrototypeOf", "propertyIsEnumerable", "toLocaleString",
    "toString", "valueOf", "__defineGetter__", "__defineSetter__", "__lookupGetter__", "__lookupSetter__"
  }

  /** Indexing the object literal holding the table with a key: an own entry,
      else a member found on the prototype chain, else undefined. */
  function LiteralLookup(key: string): JsValue {
    match RoleMessage(key)
    case Some(msg) => JsString(msg)
    case None =>
      if key == "__proto__" then JsObject
      else if key in InheritedMembers then JsFunction(key)
      else Undefined
  }

  /** The welcome text as the component computes it: the table indexed with
      the first role, falling back to the generic text when the value found
      is falsy. */
  function WelcomeMessageAsWritten(roles: seq<string>): JsValue {
    if roles == [] then JsString(GenericWelcome)
    else
      var found := LiteralLookup(roles[0]);
      if Truthy(found) then found else JsString(GenericWelcome)
  }

  /** A first role that names an inherited member yields that member rather
      than any text, so the welcome panel is not the generic text. */
  lemma WelcomeAsWrittenInheritedKey()
    ensures WelcomeMessageAsWritten(["constructor"]) == JsFunction("constructor")
    ensures WelcomeMessageAsWritten(["__proto__"]) == JsObject
    ensures WelcomeMessage(["constructor"]) == GenericWelcome
  {
  }

  /** For every first role that is not an inherited member name, the code as
      written and the corrected function give the same text. */
  lemma WelcomeAsWrittenAgrees(roles: seq<string>)
    requires roles == [] || (roles[0] !in InheritedMembers && roles[0] != "__proto__")
    ensures WelcomeMessageAsWritten(roles) == JsString(WelcomeMessage(roles))
  {
  }

  // ---------------------------------------------------------------------
  // Quick actions

  /** The six quick actions the dashboard can offer, declared in the fixed
      order in which they are listed. */
  datatype QuickAction = AddNewItem | ViewReports | ManageUsers | SystemSettings | UpdateStock | ViewInventory
  {
    function Label(): string {
      match this
      case AddNewItem => "Add New Item"
      case ViewReports => "View Reports"
      case ManageUsers => "Manage Users"
      case SystemSettings => "System Settings"
      case UpdateStock => "Update Stock"
      case ViewInventory => "View Inventory"
    }

    function Description(): string {
      match this
      case AddNewItem => "Add new inventory item"
      case ViewReports => "View analytics and reports"
      case ManageUsers => "Add or modify users"
      case SystemSettings => "Configure system settings"
      case UpdateStock => "Update inventory levels"
      case ViewInventory => "Browse all items"
    }

    /** The position of the action in the fixed listing order. */
    function Rank(): nat {
      match this
      case AddNewItem => 0
      case ViewReports => 1
      case ManageUsers => 2
      case SystemSettings => 3
      case UpdateStock => 4
      case ViewInventory => 5
    }
  }

  /** Different actions have different labels. */
  lemma LabelsDistinct(a: QuickAction, b: QuickAction)
    requires a != b
    ensures a.Label() != b.Label()
  {
  }

  /** The actions appear in the fixed order, each at most once. */
  predicate RankIncreasing(actions: seq<QuickAction>) {
    forall i, j :: 0 <= i < j < |actions| ==> actions[i].Rank() < actions[j].Rank()
  }

  /** A list in the fixed order repeats no label. */
  lemma IncreasingLabelsDistinct(actions: seq<QuickAction>)
    requires RankIncreasing(actions)
    ensures forall i, j :: 0 <= i < j < |actions| ==> actions[i].Label() != actions[j].Label()
  {
    forall i, j | 0 <= i < j < |actions|
      ensures actions[i].Label() != actions[j].Label()
    {
      LabelsDistinct(actions[i], actions[j]);
    }
  }

  /** The quick actions offered to a user, built by appending one group after
      another: ending with "View Inventory", each action present exactly when
      the user holds one of the roles it is meant for, in the fixed order and
      without a repeated label. */
  method QuickActions(roles: seq<string>) returns (actions: seq<QuickAction>)
    ensures 1 <= |actions| <= 6 && actions[|actions| - 1] == ViewInventory
    ensures roles == [] ==> actions == [ViewInventory]
    ensures AddNewItem in actions <==> CanViewUsers(roles)
    ensures ViewReports in actions <==> CanViewUsers(roles)
    ensures ManageUsers in actions <==> "ADMIN" in roles
    ensures SystemSettings in actions <==> "ADMIN" in roles
    ensures UpdateStock in actions <==> "STAFF" in roles || "MANAGER" in roles
    ensures RankIncreasing(actions)
    ensures forall i, j :: 0 <= i < j < |actions| ==> actions[i].Label() != actions[j].Label()
  {
    actions := [];
    if roles == [] {
      actions := actions + [ViewInventory];
      return;
    }
    var manages := "ADMIN" in roles || "MANAGER" in roles;
    var administers := "ADMIN" in roles;
    var stocks := "STAFF" in roles || "MANAGER" in roles;
    if manages {
      actions := actions + [AddNewItem, ViewReports];
    }
    if administers {
      actions := actions + [ManageUsers, SystemSettings];
    }
    if stocks {
      actions := actions + [UpdateStock];
    }
    actions := actions + [ViewInventory];
    assert actions == ActionGroups(manages, administers, stocks);
    ActionGroupsMeet(roles, manages, administers, stocks);
  }

  /** The closed form of the appends in `QuickActions`, used only by its proof:
      the groups for managers, for administrators and for stock keepers,
      followed by "View Inventory". */
  function ActionGroups(manages: bool, administers: bool, stocks: bool): seq<QuickAction> {
    (if manages then [AddNewItem, ViewReports] else [])
    + (if administers then [ManageUsers, SystemSettings] else [])
    + (if stocks then [UpdateStock] else [])
    + [ViewInventory]
  }

  /** The groups chosen by a user's roles meet every promise of the listing. */
  lemma ActionGroupsMeet(roles: seq<string>, manages: bool, administers: bool, stocks: bool)
    requires manages == CanViewUsers(roles) && administers == ("ADMIN" in roles)
    requires stocks == ("STAFF" in roles || "MANAGER" in roles)
    ensures var actions := ActionGroups(manages, administers, stocks);
            && 1 <= |actions| <= 6 && actions[|actions| - 1] == ViewInventory
            && (AddNewItem in actions <==> CanViewUsers(roles))
            && (ViewReports in actions <==> CanViewUsers(roles))
            && (ManageUsers in actions <==> "ADMIN" in roles)
            && (SystemSettings in actions <==> "ADMIN" in roles)
            && (UpdateStock in actions <==> "STAFF" in roles || "MANAGER" in roles)
            && RankIncreasing(actions)
            && forall i, j :: 0 <= i < j < |actions| ==> actions[i].Label() != actions[j].Label()
  {
    ActionGroupsMembers(manages, administers, stocks);
    ActionGroupsOrdered(manages, administers, stocks);
    IncreasingLabelsDistinct(ActionGroups(manages, administers, stocks));
  }

  lemma ActionGroupsMembers(manages: bool, administers: bool, stocks: bool)
    ensures var actions := ActionGroups(manages, administers, stocks);
            && 1 <= |actions| <= 6 && actions[|actions| - 1] == ViewInventory
            && (AddNewItem in actions <==> manages) && (ViewReports in actions <==> manages)
            && (ManageUsers in actions <==> administers) && (SystemSettings in actions <==> administers)
            && (UpdateStock in actions <==> stocks)
  {
  }

  lemma ActionGroupsOrdered(manages: bool, administers: bool, stocks: bool)
    ensures RankIncreasing(ActionGroups(manages, administers, stocks))
  {
  }

  // ---------------------------------------------------------------------
  // Role statistics

  datatype RoleStat = RoleStat(role: string, count: nat)

  /** How many times `x` occurs in `s`. */
  function Count(s: seq<string>, x: string): nat {
    if s == [] then 0
    else Count(s[..|s| - 1], x) + (if s[|s| - 1] == x then 1 else 0)
  }

  /** How many times `role` occurs across the role lists of all `users`. */
  function Occurrences(users: seq<User>, role: string): nat {
    if users == [] then 0
    else Occurrences(users[..|users| - 1], role) + Count(users[|users| - 1].roles, role)
  }

  function Tally(acc: map<string, nat>, role: string): nat {
    if role in acc then acc[role] else 0
  }

  /** The per-role user counts, accumulated over every role of every user and
      reported for the four known roles in a fixed order. */
  method RoleStats(users: seq<User>) returns (stats: seq<RoleStat>)
    ensures |stats| == |TrackedRoles|
    ensures forall k :: 0 <= k < |stats| ==>
              stats[k].role == TrackedRoles[k] && stats[k].count == Occurrences(users, TrackedRoles[k])
  {
    var acc: map<string, nat> := map[];
    var i := 0;
    while i < |users|
      invariant 0 <= i <= |users|
      invariant forall r :: Tally(acc, r) == Occurrences(users[..i], r)
    {
      var user := users[i];
      assert users[..i + 1][..i] == users[..i];
      if |user.roles| > 0 {
        var j := 0;
        while j < |user.roles|
          invariant 0 <= j <= |user.roles|
          invariant forall r :: Tally(acc, r) == Occurrences(users[..i], r) + Count(user.roles[..j], r)
        {
          var role := user.roles[j];
          assert user.roles[..j + 1][..j] == user.roles[..j];
          acc := acc[role := Tally(acc, role) + 1];
          j := j + 1;
        }
        assert user.roles[..j] == user.roles;
      }
      i := i + 1;
    }
    assert users[..i] == users;
    stats := [RoleStat("ADMIN", Tally(acc, "ADMIN")), RoleStat("MANAGER", Tally(acc, "MANAGER")),
              RoleStat("STAFF", Tally(acc, "STAFF")), RoleStat("VIEWER", Tally(acc, "VIEWER"))];
  }

  /** The counts over two groups of users add up. */
  lemma {:induction false} OccurrencesAppend(a: seq<User>, b: seq<User>, role: string)
    ensures Occurrences(a + b, role) == Occurrences(a, role) + Occurrences(b, role)
    decreases |b|
  {
    if b == [] {
      assert a + b == a;
    } else {
      var b' := b[..|b| - 1];
      assert (a + b)[..|a + b| - 1] == a + b';
      assert (a + b)[|a + b| - 1] == b[|b| - 1];
      OccurrencesAppend(a, b', role);
    }
  }

  /** A user without roles, or whose roles are all other tokens, adds nothing
      to the count of `role`. */
  lemma UninvolvedUserAddsNothing(users: seq<User>, u: User, role: string)
    requires role !in u.roles
    ensures Occurrences(users + [u], role) == Occurrences(users, role)
  {
    assert (users + [u])[..|users + [u]| - 1] == users;
    CountAbsent(u.roles, role);
  }

  lemma {:induction false} CountAbsent(s: seq<string>, x: string)
    requires x !in s
    ensures Count(s, x) == 0
    decreases |s|
  {
    if s != [] {
      assert forall y :: y in s[..|s| - 1] ==> y in s;
      CountAbsent(s[..|s| - 1], x);
    }
  }

  // ---------------------------------------------------------------------
  // Loading the user list and the admin panels

  /** What the user-list request can throw: an Error object with its message,
      or another value that may carry a server message. */
  datatype Thrown = ErrorInstance(message: string) | ServerReply(serverMessage: Option<string>)

  /** The outcome of the user-list request, supplied by the caller. */
  datatype UsersResponse = Succeeded(data: seq<User>) | Unsuccessful | Threw(thrown: Thrown)

  const LoadFailure := "Failed to load users"

  /** The detail shown after "Failed to load users: " when the request throws. */
  function ThrownDetail(t: Thrown): (d: string)
    ensures t.ErrorInstance? ==> d == t.message
    ensures t.ServerReply? && t.serverMessage.Some? && t.serverMessage.value != "" ==> d == t.serverMessage.value
    ensures t.ServerReply? && (t.serverMessage == None || t.serverMessage == Some("")) ==> d == LoadFailure
    ensures d == "" ==> t == ErrorInstance("")
  {
    match t
    case ErrorInstance(m) => m
    case ServerReply(Some(m)) => if m != "" then m else LoadFailure
    case ServerReply(None) => LoadFailure
  }

  /** Which admin panels the page shows. */
  datatype Panels = Panels(roleDistribution: bool, userList: bool)

  function VisiblePanels(roles: seq<string>, allUsers: seq<User>): (p: Panels)
    ensures p.roleDistribution <==> CanViewUsers(roles)
    ensures p.userList <==> p.roleDistribution && allUsers != []
  {
    Panels(CanViewUsers(roles), CanViewUsers(roles) && |allUsers| > 0)
  }

  class DashboardState {
    var currentUser: Option<User>
    var allUsers: seq<User>
    var loading: bool
    var error: string

    constructor (user: Option<User>)
      ensures currentUser == user && allUsers == [] && loading && error == ""
    {
      currentUser := user;
      allUsers := [];
      loading := true;
      error := "";
    }

    /** Loads the user list for `user`, or for the current user when none is
        given. Without a user nothing happens; without ADMIN or MANAGER the
        list is emptied and the request is not made (`requested` is false);
        otherwise `response` decides the new list or error message. */
    method LoadUsers(user: Option<User>, response: UsersResponse) returns (requested: bool)
      modifies this
      ensures currentUser == old(currentUser)
      ensures var u := if user.Some? then user else old(currentUser);
              && (u == None ==> !requested && allUsers == old(allUsers) && loading == old(loading) && error == old(error))
              && (u != None && !CanViewUsers(u.value.roles) ==>
                    !requested && allUsers == [] && !loading && error == old(error))
              && (u != None && CanViewUsers(u.value.roles) ==>
                    requested && !loading
                    && match response
                       case Succeeded(data) => allUsers == data && error == old(error)
                       case Unsuccessful => allUsers == old(allUsers) && error == LoadFailure
                       case Threw(t) => allUsers == old(allUsers) && error == LoadFailure + ": " + ThrownDetail(t))
    {
      var toCheck := if user.Some? then user else currentUser;
      if toCheck == None {
        return false;
      }
      if !CanViewUsers(toCheck.value.roles) {
        allUsers := [];
        loading := false;
        return false;
      }
      requested := true;
      loading := true;
      match response {
        case Succeeded(data) =>
          allUsers := data;
        case Unsuccessful =>
          error := LoadFailure;
        case Threw(t) =>
          error := LoadFailure + ": " + ThrownDetail(t);
      }
      loading := false;
    }

    /** The refresh button reloads for the current user. */
    method Refresh(response: UsersResponse) returns (requested: bool)
      modifies this
      ensures currentUser == old(currentUser)
      ensures var u := old(currentUser);
              && (u == None ==> !requested && allUsers == old(allUsers) && loading == old(loading) && error == old(error))
              && (u != None && !CanViewUsers(u.value.roles) ==>
                    !requested && allUsers == [] && !loading && error == old(error))
              && (u != None && CanViewUsers(u.value.roles) ==>
                    requested && !loading
                    && match response
                       case Succeeded(data) => allUsers == data && error == old(error)
                       case Unsuccessful => allUsers == old(allUsers) && error == LoadFailure
                       case Threw(t) => allUsers == old(allUsers) && error == LoadFailure + ": " + ThrownDetail(t))
    {
      requested := LoadUsers(None, response);
    }
  }
}
