/** The role-gated navigation menu of the sidebar: the catalog of menu nodes,
    the permission test and the recursive walk that decides which rows are
    rendered, at which indentation level, and in which order. */
module Menu {

  /** One entry of the menu catalog. `title` is the text the entry is drawn
      with (its label; `label` is a reserved word in Dafny). A node with at
      least one child is a branch (clicking it opens or closes it); any other
      node is a leaf. */
  datatype MenuNode = MenuNode(id: string, title: string, path: string, roles: seq<string>, children: seq<MenuNode>)

  predicate IsBranch(n: MenuNode) {
    |n.children| > 0
  }

  /** What the walk depends on besides the catalog: the signed-in user's role
      tokens, the ids of the opened menus and the id of the active item. */
  datatype ViewState = ViewState(roles: seq<string>, openMenus: seq<string>, activeItem: string)

  /** One rendered row: the node, its nesting level (0 at top level) and the
      three flags the row is drawn with. */
  datatype Row = Row(item: MenuNode, level: nat, isBranch: bool, isOpen: bool, isActive: bool)

  function RowOf(item: MenuNode, level: nat, v: ViewState): Row {
    Row(item, level, IsBranch(item), item.id in v.openMenus, item.id == v.activeItem)
  }

  /** A node may be seen when one of the roles it requires is held by the user. */
  function HasPermission(required: seq<string>, userRoles: seq<string>): (ok: bool)
    ensures ok <==> exists r :: r in required && r in userRoles
    ensures required == [] || userRoles == [] ==> !ok
  {
    if required == [] then false
    else required[0] in userRoles || HasPermission(required[1..], userRoles)
  }

  /** The rows drawn for one node: nothing if the user lacks permission for it,
      otherwise its own row followed, when it is an opened branch, by the rows
      of its children one level deeper. */
  function RenderItem(item: MenuNode, level: nat, v: ViewState): seq<Row>
    decreases item
  {
    if !HasPermission(item.roles, v.roles) then []
    else [RowOf(item, level, v)]
         + (if IsBranch(item) && item.id in v.openMenus then RenderList(item.children, level + 1, v) else [])
  }

  /** The rows drawn for a list of sibling nodes, in catalog order. */
  function RenderList(items: seq<MenuNode>, level: nat, v: ViewState): seq<Row>
    decreases items
  {
    if items == [] then []
    else RenderItem(items[0], level, v) + RenderList(items[1..], level, v)
  }

  /** Every node of a forest, each followed by its descendants, in catalog order. */
  function Nodes(items: seq<MenuNode>): seq<MenuNode>
    decreases items
  {
    if items == [] then []
    else [items[0]] + Nodes(items[0].children) + Nodes(items[1..])
  }

  /** Reference definition of visibility: `n` is reachable `depth` levels below
      the top of `items` through nodes the user is permitted to see, every one
      above `n` being an opened branch. */
  ghost predicate Shown(items: seq<MenuNode>, n: MenuNode, depth: nat, v: ViewState)
    decreases items
  {
    exists i :: 0 <= i < |items| && ShownIn(items[i], n, depth, v)
  }

  ghost predicate ShownIn(item: MenuNode, n: MenuNode, depth: nat, v: ViewState)
    decreases item
  {
    && HasPermission(item.roles, v.roles)
    && ((depth == 0 && item == n)
        || (depth > 0 && IsBranch(item) && item.id in v.openMenus && Shown(item.children, n, depth - 1, v)))
  }

  /** The nodes of the rows drawn at exactly level `level`, in order. */
  function AtLevel(rows: seq<Row>, level: nat): seq<MenuNode> {
    if rows == [] then []
    else (if rows[0].level == level then [rows[0].item] else []) + AtLevel(rows[1..], level)
  }

  /** The nodes of `items` the user is permitted to see, in order. */
  function Permitted(items: seq<MenuNode>, roles: seq<string>): seq<MenuNode> {
    if items == [] then []
    else (if HasPermission(items[0].roles, roles) then [items[0]] else []) + Permitted(items[1..], roles)
  }

  // ---------------------------------------------------------------------
  // Properties of the render walk

  /** Rendering a concatenation of sibling lists renders each list in turn. */
  lemma {:induction false} RenderListAppend(a: seq<MenuNode>, b: seq<MenuNode>, level: nat, v: ViewState)
    ensures RenderList(a + b, level, v) == RenderList(a, level, v) + RenderList(b, level, v)
    decreases |a|
  {
    if a != [] {
      assert (a + b)[0] == a[0];
      assert (a + b)[1..] == a[1..] + b;
      RenderListAppend(a[1..], b, level, v);
    } else {
      assert a + b == b;
    }
  }

  /** Every row drawn for `item` is the row of a node of its subtree at a level
      no smaller than `level`. */
  lemma {:induction false} RenderItemWellFormed(item: MenuNode, level: nat, v: ViewState)
    ensures forall r :: r in RenderItem(item, level, v) ==>
              r.level >= level && r == RowOf(r.item, r.level, v) && r.item in Nodes([item])
    decreases item, 1
  {
    if HasPermission(item.roles, v.roles) && IsBranch(item) && item.id in v.openMenus {
      RenderListWellFormed(item.children, level + 1, v);
      assert Nodes([item]) == [item] + Nodes(item.children) + Nodes([]);
    }
  }

  lemma {:induction false} RenderListWellFormed(items: seq<MenuNode>, level: nat, v: ViewState)
    ensures forall r :: r in RenderList(items, level, v) ==>
              r.level >= level && r == RowOf(r.item, r.level, v) && r.item in Nodes(items)
    decreases items, 0
  {
    if items != [] {
      RenderItemWellFormed(items[0], level, v);
      RenderListWellFormed(items[1..], level, v);
      assert Nodes([items[0]]) == [items[0]] + Nodes(items[0].children) + Nodes([]);
    }
  }

  /** The row of `n` is drawn `depth` levels below `level` exactly when `n` is
      shown at that depth under `item`: `n` and every ancestor of `n`, from
      `item` down, are permitted, and every ancestor is an opened branch. */
  lemma {:induction false} RenderItemShows(item: MenuNode, level: nat, v: ViewState, n: MenuNode, depth: nat)
    ensures RowOf(n, level + depth, v) in RenderItem(item, level, v) <==> ShownIn(item, n, depth, v)
    decreases item, 1
  {
    if depth == 0 {
      ShowsHere(item, level, v, n);
    } else {
      if HasPermission(item.roles, v.roles) && IsBranch(item) && item.id in v.openMenus {
        assert level + depth == (level + 1) + (depth - 1);
        RenderListShows(item.children, level + 1, v, n, depth - 1);
      }
      ShowsBelow(item, level, v, n, depth);
    }
  }

  /** The row of `n` at the item's own level is drawn exactly when `n` is the
      item and the item is permitted. */
  lemma ShowsHere(item: MenuNode, level: nat, v: ViewState, n: MenuNode)
    ensures RowOf(n, level, v) in RenderItem(item, level, v) <==> ShownIn(item, n, 0, v)
  {
    if HasPermission(item.roles, v.roles) && IsBranch(item) && item.id in v.openMenus {
      RenderListWellFormed(item.children, level + 1, v);
      assert RowOf(n, level, v) !in RenderList(item.children, level + 1, v);
    }
  }

  /** One step of the induction for rows below the item's own level. */
  lemma ShowsBelow(item: MenuNode, level: nat, v: ViewState, n: MenuNode, depth: nat)
    requires depth > 0
    requires HasPermission(item.roles, v.roles) && IsBranch(item) && item.id in v.openMenus ==>
               (RowOf(n, level + depth, v) in RenderList(item.children, level + 1, v) <==> Shown(item.children, n, depth - 1, v))
    ensures RowOf(n, level + depth, v) in RenderItem(item, level, v) <==> ShownIn(item, n, depth, v)
  {
    assert RowOf(n, level + depth, v) != RowOf(item, level, v);
  }

  lemma {:induction false} RenderListShows(items: seq<MenuNode>, level: nat, v: ViewState, n: MenuNode, depth: nat)
    ensures RowOf(n, level + depth, v) in RenderList(items, level, v) <==> Shown(items, n, depth, v)
    decreases items, 0
  {
    if items != [] {
      RenderItemShows(items[0], level, v, n, depth);
      RenderListShows(items[1..], level, v, n, depth);
      if Shown(items, n, depth, v) {
        var i :| 0 <= i < |items| && ShownIn(items[i], n, depth, v);
        if i > 0 {
          assert items[1..][i - 1] == items[i];
        }
      }
      if Shown(items[1..], n, depth, v) {
        var i :| 0 <= i < |items[1..]| && ShownIn(items[1..][i], n, depth, v);
        assert items[i + 1] == items[1..][i];
      }
    }
  }

  /** The rows drawn at the top level are exactly the permitted top-level
      nodes, in catalog order. */
  lemma {:induction false} TopLevelRowsArePermittedItems(items: seq<MenuNode>, level: nat, v: ViewState)
    ensures AtLevel(RenderList(items, level, v), level) == Permitted(items, v.roles)
    decreases items
  {
    if items != [] {
      var item := items[0];
      var head, tail := RenderItem(item, level, v), RenderList(items[1..], level, v);
      var mine: seq<MenuNode> := if HasPermission(item.roles, v.roles) then [item] else [];
      assert RenderList(items, level, v) == head + tail;
      assert Permitted(items, v.roles) == mine + Permitted(items[1..], v.roles);
      TopLevelRowsArePermittedItems(items[1..], level, v);
      AtLevelAppend(head, tail, level);
      assert AtLevel(head, level) == mine by {
        if HasPermission(item.roles, v.roles) {
          var rest := if IsBranch(item) && item.id in v.openMenus then RenderList(item.children, level + 1, v) else [];
          assert head == [RowOf(item, level, v)] + rest;
          if IsBranch(item) && item.id in v.openMenus {
            RenderListWellFormed(item.children, level + 1, v);
          }
          AtLevelDeeper(rest, level);
          AtLevelAppend([RowOf(item, level, v)], rest, level);
          assert AtLevel([RowOf(item, level, v)], level) == [item];
        }
      }
    }
  }

  lemma {:induction false} AtLevelAppend(a: seq<Row>, b: seq<Row>, level: nat)
    ensures AtLevel(a + b, level) == AtLevel(a, level) + AtLevel(b, level)
    decreases |a|
  {
    if a == [] {
      assert a + b == b;
    } else {
      var first: seq<MenuNode> := if a[0].level == level then [a[0].item] else [];
      assert (a + b)[0] == a[0];
      assert (a + b)[1..] == a[1..] + b;
      assert AtLevel(a + b, level) == first + AtLevel(a[1..] + b, level);
      AtLevelAppend(a[1..], b, level);
      assert AtLevel(a, level) == first + AtLevel(a[1..], level);
    }
  }

  lemma {:induction false} AtLevelDeeper(rows: seq<Row>, level: nat)
    requires forall r :: r in rows ==> r.level > level
    ensures AtLevel(rows, level) == []
    decreases |rows|
  {
    if rows != [] {
      assert rows[0] in rows;
      assert forall r :: r in rows[1..] ==> r in rows;
      AtLevelDeeper(rows[1..], level);
    }
  }

  /** A node the user may not see is pruned together with its whole subtree:
      leaving it out of the catalog changes nothing that is drawn, whatever
      roles its descendants require. */
  lemma PrunedNodeContributesNothing(items: seq<MenuNode>, i: nat, level: nat, v: ViewState)
    requires i < |items| && !HasPermission(items[i].roles, v.roles)
    ensures RenderList(items[..i] + items[i + 1..], level, v) == RenderList(items, level, v)
  {
    var before, after := items[..i], items[i + 1..];
    var rest := [items[i]] + after;
    assert items == before + rest;
    assert rest[0] == items[i] && rest[1..] == after;
    assert RenderItem(items[i], level, v) == [];
    assert RenderList(rest, level, v) == RenderList(after, level, v);
    RenderListAppend(before, rest, level, v);
    RenderListAppend(before, after, level, v);
  }

  /** A user without any role is shown an empty menu. */
  lemma {:induction false} NoRolesNoRows(items: seq<MenuNode>, level: nat, v: ViewState)
    requires v.roles == []
    ensures RenderList(items, level, v) == []
    decreases items
  {
    if items != [] {
      NoRolesNoRows(items[1..], level, v);
    }
  }

  // ---------------------------------------------------------------------
  // Rendering short sibling lists

  /** A node none of whose roles the user holds draws nothing. */
  lemma Denied(item: MenuNode, level: nat, v: ViewState)
    requires forall r :: r in v.roles ==> r !in item.roles
    ensures RenderItem(item, level, v) == []
  {
  }

  /** A node one of whose roles the user holds draws its own row first. */
  lemma Granted(item: MenuNode, level: nat, v: ViewState, role: string)
    requires role in item.roles && role in v.roles
    ensures RenderItem(item, level, v)
            == [RowOf(item, level, v)]
               + (if IsBranch(item) && item.id in v.openMenus then RenderList(item.children, level + 1, v) else [])
  {
  }

  /** Rendering three sibling nodes renders each in turn. */
  lemma RenderThree(a: MenuNode, b: MenuNode, c: MenuNode, level: nat, v: ViewState)
    ensures RenderList([a, b, c], level, v) == RenderItem(a, level, v) + RenderItem(b, level, v) + RenderItem(c, level, v)
  {
    assert [a, b, c] == [a] + [b, c] && [b, c] == [b] + [c];
    RenderListAppend([a], [b, c], level, v);
    RenderListAppend([b], [c], level, v);
    assert [a][1..] == [] && [b][1..] == [] && [c][1..] == [];
  }

  /** Three closed siblings the user may all see draw one row each. */
  lemma ThreeGranted(a: MenuNode, b: MenuNode, c: MenuNode, level: nat, v: ViewState, role: string)
    requires role in v.roles && role in a.roles && role in b.roles && role in c.roles
    requires a.id !in v.openMenus && b.id !in v.openMenus && c.id !in v.openMenus
    ensures RenderList([a, b, c], level, v) == [RowOf(a, level, v), RowOf(b, level, v), RowOf(c, level, v)]
  {
    RenderThree(a, b, c, level, v);
    Granted(a, level, v, role);
    Granted(b, level, v, role);
    Granted(c, level, v, role);
  }

  /** Of three siblings, only the first, a leaf, is drawn. */
  lemma FirstGranted(a: MenuNode, b: MenuNode, c: MenuNode, level: nat, v: ViewState, role: string)
    requires role in v.roles && role in a.roles && !IsBranch(a)
    requires forall r :: r in v.roles ==> r !in b.roles && r !in c.roles
    ensures RenderList([a, b, c], level, v) == [RowOf(a, level, v)]
  {
    RenderThree(a, b, c, level, v);
    Granted(a, level, v, role);
    Denied(b, level, v);
    Denied(c, level, v);
  }

  /** Three siblings the user may all see, the middle one an opened branch,
      draw their rows with the middle one's children beneath it. */
  lemma MiddleOpen(a: MenuNode, b: MenuNode, c: MenuNode, level: nat, v: ViewState, role: string)
    requires role in v.roles && role in a.roles && role in b.roles && role in c.roles
    requires a.id !in v.openMenus && IsBranch(b) && b.id in v.openMenus && c.id !in v.openMenus
    ensures RenderList([a, b, c], level, v)
            == [RowOf(a, level, v), RowOf(b, level, v)] + RenderList(b.children, level + 1, v) + [RowOf(c, level, v)]
  {
    RenderThree(a, b, c, level, v);
    Granted(a, level, v, role);
    Granted(b, level, v, role);
    Granted(c, level, v, role);
  }

  /** Three siblings the user may see none of draw nothing. */
  lemma ThreeDenied(a: MenuNode, b: MenuNode, c: MenuNode, level: nat, v: ViewState)
    requires forall r :: r in v.roles ==> r !in a.roles && r !in b.roles && r !in c.roles
    ensures RenderList([a, b, c], level, v) == []
  {
    RenderThree(a, b, c, level, v);
    Denied(a, level, v);
    Denied(b, level, v);
    Denied(c, level, v);
  }

  /** The permitted nodes of a list are the whole list when every node is permitted. */
  lemma {:induction false} PermittedWhole(items: seq<MenuNode>, roles: seq<string>)
    requires forall n :: n in items ==> HasPermission(n.roles, roles)
    ensures Permitted(items, roles) == items
  {
    if items != [] {
      assert items[0] in items;
      PermittedWhole(items[1..], roles);
    }
  }
}
