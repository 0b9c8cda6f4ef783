/** The sidebar component: the list of opened menus and the active item it
    keeps between renders, the click handler that updates them, and logout. */
module Sidebar {
  import opened Accounts
  import opened Menu
  import opened MenuCatalog

  predicate NoDuplicates(s: seq<string>) {
    forall i, j :: 0 <= i < j < |s| ==> s[i] != s[j]
  }

  /** `s` with every occurrence of `x` dropped, the rest kept in order. */
  function Without(s: seq<string>, x: string): (r: seq<string>)
    ensures forall y :: y in r <==> y in s && y != x
    ensures NoDuplicates(s) ==> NoDuplicates(r)
    ensures x !in s ==> r == s
    ensures |r| <= |s|
  {
    if s == [] then []
    else if s[0] == x then Without(s[1..], x)
    else
      var rest := Without(s[1..], x);
      assert NoDuplicates(s) ==> s[0] !in s[1..] && forall k :: 0 <= k < |rest| ==> rest[k] in rest && rest[k] != s[0];
      [s[0]] + rest
  }

  /** The opened menus after the menu `id` is toggled: a listed id is removed,
      any other id (known to the catalog or not) is appended. */
  function Toggled(openMenus: seq<string>, id: string): (r: seq<string>)
    ensures forall y :: y != id ==> (y in r <==> y in openMenus)
    ensures id in r <==> id !in openMenus
    ensures NoDuplicates(openMenus) ==> NoDuplicates(r)
  {
    if id in openMenus then Without(openMenus, id) else openMenus + [id]
  }

  /** Toggling an id twice restores whether it is listed. When it was not
      listed, the list itself is restored. */
  lemma ToggleTwice(openMenus: seq<string>, id: string)
    ensures id in Toggled(Toggled(openMenus, id), id) <==> id in openMenus
    ensures id !in openMenus ==> Toggled(Toggled(openMenus, id), id) == openMenus
  {
    if id !in openMenus {
      WithoutAppended(openMenus, id);
    }
  }

  lemma {:induction false} WithoutAppended(s: seq<string>, x: string)
    requires x !in s
    ensures Without(s + [x], x) == s
    decreases |s|
  {
    if s == [] {
      assert [] + [x] == [x];
      assert [x][1..] == [];
    } else {
      assert (s + [x])[0] == s[0];
      assert (s + [x])[1..] == s[1..] + [x];
      WithoutAppended(s[1..], x);
      assert s == [s[0]] + s[1..];
    }
  }

  /** Every rendered row shows a node of the catalog. */
  lemma RowsShowCatalogNodes(v: ViewState)
    ensures forall r :: r in RenderList(Catalog, 0, v) ==> r.item in Nodes(Catalog)
  {
    RenderListWellFormed(Catalog, 0, v);
  }

  class SidebarState {
    /** The signed-in user the sidebar is drawn for. */
    const currentUser: User
    var activeItem: string
    var openMenus: seq<string>

    /** The opened menus are listed once each, and the active item is a leaf
        of the catalog. */
    ghost predicate Valid()
      reads this
    {
      NoDuplicates(openMenus) && activeItem in LeafIds(Nodes(Catalog))
    }

    constructor (user: User)
      ensures Valid()
      ensures currentUser == user && activeItem == LandingId && openMenus == []
    {
      currentUser := user;
      activeItem := LandingId;
      openMenus := [];
      new;
      LandingIsLeaf();
    }

    function View(): ViewState
      reads this
    {
      ViewState(currentUser.roles, openMenus, activeItem)
    }

    /** The rows the sidebar draws in its current state. */
    function Rows(): seq<Row>
      reads this
    {
      RenderList(Catalog, 0, View())
    }

    /** Opens a closed menu or closes an open one. */
    method ToggleMenu(menuId: string)
      requires Valid()
      modifies this
      ensures Valid()
      ensures openMenus == Toggled(old(openMenus), menuId)
      ensures activeItem == old(activeItem)
    {
      openMenus := Toggled(openMenus, menuId);
    }

    /** A click on a drawn row: a branch is toggled and the active item is
        kept; a leaf becomes the active item and the opened menus are kept. */
    method Click(row: Row)
      requires Valid() && row in Rows()
      modifies this
      ensures Valid()
      ensures IsBranch(row.item) ==> openMenus == Toggled(old(openMenus), row.item.id) && activeItem == old(activeItem)
      ensures !IsBranch(row.item) ==> activeItem == row.item.id && openMenus == old(openMenus)
    {
      if IsBranch(row.item) {
        ToggleMenu(row.item.id);
      } else {
        RowsShowCatalogNodes(View());
        activeItem := row.item.id;
      }
    }

    /** Logout removes the stored user and sends the browser to "/"; the
        sidebar's own state is left as it was. */
    method Logout(store: SessionStore) returns (target: string)
      modifies store
      ensures store.user == None && target == "/"
      ensures activeItem == old(activeItem) && openMenus == old(openMenus)
    {
      store.RemoveUser();
      target := "/";
    }
  }
}
