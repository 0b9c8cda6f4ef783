/** The sidebar's fixed menu catalog and what particular users see of it. */
module MenuCatalog {
  import opened Menu

  const DashboardNode := MenuNode("dashboard", "Dashboard", "/dashboard", ["ADMIN", "MANAGER", "STAFF", "VIEWER"], [])

  const InventoryNode := MenuNode("inventory", "Inventory Management", "/inventory", ["ADMIN", "MANAGER", "STAFF"], [
    MenuNode("add-item", "Add Item", "/inventory/add", ["ADMIN", "MANAGER"], []),
    MenuNode("view-items", "View Items", "/inventory/view", ["ADMIN", "MANAGER", "STAFF", "VIEWER"], []),
    MenuNode("update-stock", "Update Stock", "/inventory/update", ["ADMIN", "MANAGER", "STAFF"], []),
    MenuNode("stock-alerts", "Stock Alerts", "/inventory/alerts", ["ADMIN", "MANAGER"], [])
  ])

  const SuppliersNode := MenuNode("suppliers", "Supplier Management", "/suppliers", ["ADMIN", "MANAGER"], [
    MenuNode("add-supplier", "Add Supplier", "/suppliers/add", ["ADMIN", "MANAGER"], []),
    MenuNode("view-suppliers", "View Suppliers", "/suppliers/view", ["ADMIN", "MANAGER", "STAFF"], []),
    MenuNode("supplier-orders", "Orders", "/suppliers/orders", ["ADMIN", "MANAGER"], [])
  ])

  const ReportsNode := MenuNode("reports", "Reports & Analytics", "/reports", ["ADMIN", "MANAGER"], [
    MenuNode("inventory-report", "Inventory Report", "/reports/inventory", ["ADMIN", "MANAGER"], []),
    MenuNode("sales-report", "Sales Report", "/reports/sales", ["ADMIN", "MANAGER"], []),
    MenuNode("supplier-report", "Supplier Report", "/reports/suppliers", ["ADMIN"], [])
  ])

  const UserManagementNode := MenuNode("user-management", "User Management", "/users", ["ADMIN"], [
    MenuNode("view-users", "View Users", "/users/view", ["ADMIN"], []),
    MenuNode("add-user", "Add User", "/users/add", ["ADMIN"], []),
    MenuNode("manage-roles", "Manage Roles", "/users/roles", ["ADMIN"], [])
  ])

  const SettingsNode := MenuNode("settings", "Settings", "/settings", ["ADMIN", "MANAGER"], [
    MenuNode("system-settings", "System Settings", "/settings/system", ["ADMIN"], []),
    MenuNode("profile-settings", "Profile Settings", "/settings/profile", ["ADMIN", "MANAGER", "STAFF", "VIEWER"], [])
  ])

  /** The six top-level entries, in the order they are drawn. */
  const Catalog: seq<MenuNode> := [DashboardNode, InventoryNode, SuppliersNode, ReportsNode, UserManagementNode, SettingsNode]

  /** The landing item that is active before anything is clicked. */
  const LandingId := "dashboard"

  /** Ids of the nodes of a list that have no children. */
  function LeafIds(nodes: seq<MenuNode>): (ids: set<string>)
    ensures forall n :: n in nodes && !IsBranch(n) ==> n.id in ids
    ensures forall id :: id in ids ==> exists n :: n in nodes && !IsBranch(n) && n.id == id
  {
    set n | n in nodes && !IsBranch(n) :: n.id
  }

  /** The landing item is a leaf of the catalog. */
  lemma LandingIsLeaf()
    ensures LandingId in LeafIds(Nodes(Catalog))
  {
    assert Nodes(Catalog)[0] == DashboardNode;
  }

  /** Rendering the catalog renders its first three entries, then its last three. */
  lemma RenderCatalog(v: ViewState)
    ensures RenderList(Catalog, 0, v)
            == RenderList([DashboardNode, InventoryNode, SuppliersNode], 0, v)
               + RenderList([ReportsNode, UserManagementNode, SettingsNode], 0, v)
  {
    assert Catalog == [DashboardNode, InventoryNode, SuppliersNode] + [ReportsNode, UserManagementNode, SettingsNode];
    RenderListAppend([DashboardNode, InventoryNode, SuppliersNode], [ReportsNode, UserManagementNode, SettingsNode], 0, v);
  }

  /** A user holding only VIEWER sees the dashboard entry and nothing else,
      whichever menus are open: every other top-level entry is pruned, even
      the ones with children that VIEWER may see. */
  lemma ViewerSeesOnlyDashboard(openMenus: seq<string>, activeItem: string)
    ensures var v := ViewState(["VIEWER"], openMenus, activeItem);
            RenderList(Catalog, 0, v) == [RowOf(DashboardNode, 0, v)]
  {
    var v := ViewState(["VIEWER"], openMenus, activeItem);
    RenderCatalog(v);
    ViewerFirstHalf(v);
    ViewerSecondHalf(v);
  }

  lemma ViewerFirstHalf(v: ViewState)
    requires v.roles == ["VIEWER"]
    ensures RenderList([DashboardNode, InventoryNode, SuppliersNode], 0, v) == [RowOf(DashboardNode, 0, v)]
  {
    FirstGranted(DashboardNode, InventoryNode, SuppliersNode, 0, v, "VIEWER");
  }

  lemma ViewerSecondHalf(v: ViewState)
    requires v.roles == ["VIEWER"]
    ensures RenderList([ReportsNode, UserManagementNode, SettingsNode], 0, v) == []
  {
    ThreeDenied(ReportsNode, UserManagementNode, SettingsNode, 0, v);
  }

  /** A user holding ADMIN sees all six top-level entries, in catalog order. */
  lemma AdminSeesEveryTopLevelEntry(openMenus: seq<string>, activeItem: string)
    ensures AtLevel(RenderList(Catalog, 0, ViewState(["ADMIN"], openMenus, activeItem)), 0) == Catalog
  {
    var v := ViewState(["ADMIN"], openMenus, activeItem);
    TopLevelRowsArePermittedItems(Catalog, 0, v);
    forall n | n in Catalog
      ensures HasPermission(n.roles, v.roles)
    {
      assert "ADMIN" in n.roles && "ADMIN" in v.roles;
    }
    PermittedWhole(Catalog, v.roles);
  }

  /** A user holding ADMIN, with "user-management" opened, sees the six
      top-level entries and the three children of "user-management" beneath it. */
  lemma AdminWithUserManagementOpen(activeItem: string)
    ensures var v := ViewState(["ADMIN"], ["user-management"], activeItem);
            var um := UserManagementNode.children;
            RenderList(Catalog, 0, v)
            == [RowOf(DashboardNode, 0, v), RowOf(InventoryNode, 0, v), RowOf(SuppliersNode, 0, v),
                RowOf(ReportsNode, 0, v), RowOf(UserManagementNode, 0, v),
                RowOf(um[0], 1, v), RowOf(um[1], 1, v), RowOf(um[2], 1, v), RowOf(SettingsNode, 0, v)]
  {
    var v := ViewState(["ADMIN"], ["user-management"], activeItem);
    RenderCatalog(v);
    AdminFirstHalf(v);
    AdminSecondHalf(v);
  }

  lemma AdminFirstHalf(v: ViewState)
    requires v == ViewState(["ADMIN"], ["user-management"], v.activeItem)
    ensures RenderList([DashboardNode, InventoryNode, SuppliersNode], 0, v)
            == [RowOf(DashboardNode, 0, v), RowOf(InventoryNode, 0, v), RowOf(SuppliersNode, 0, v)]
  {
    ThreeGranted(DashboardNode, InventoryNode, SuppliersNode, 0, v, "ADMIN");
  }

  lemma AdminSecondHalf(v: ViewState)
    requires v == ViewState(["ADMIN"], ["user-management"], v.activeItem)
    ensures var um := UserManagementNode.children;
            RenderList([ReportsNode, UserManagementNode, SettingsNode], 0, v)
            == [RowOf(ReportsNode, 0, v), RowOf(UserManagementNode, 0, v),
                RowOf(um[0], 1, v), RowOf(um[1], 1, v), RowOf(um[2], 1, v), RowOf(SettingsNode, 0, v)]
  {
    MiddleOpen(ReportsNode, UserManagementNode, SettingsNode, 0, v, "ADMIN");
    AdminUserManagementChildren(v);
  }

  lemma AdminUserManagementChildren(v: ViewState)
    requires v == ViewState(["ADMIN"], ["user-management"], v.activeItem)
    ensures var um := UserManagementNode.children;
            RenderList(um, 1, v) == [RowOf(um[0], 1, v), RowOf(um[1], 1, v), RowOf(um[2], 1, v)]
  {
    var um := UserManagementNode.children;
    assert um == [um[0], um[1], um[2]];
    ThreeGranted(um[0], um[1], um[2], 1, v, "ADMIN");
  }
}
