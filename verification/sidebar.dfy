/** The sidebar: the navigation tree, which entry the current path highlights,
    the expandable groups, and the bottom bar shown on small screens. */
module Sidebar {

  import opened Opt
  import opened Text
  import opened Seqs
  import opened TagLists

  /** An entry of the tree. An empty path stands for `null`; `children` is
      None when the entry has no `children` field at all. */
  datatype NavItem = NavItem(caption: String, path: String, icon: String, children: Option<seq<NavItem>>)

  function Leaf(caption: String, path: String, icon: String): NavItem {
    NavItem(caption, path, icon, None)
  }

  const NavigationItems: seq<NavItem> := [
    Leaf("Dashboard", "/dashboard", "LayoutDashboard"),
    NavItem("Jobs", "", "Briefcase", Some([
      Leaf("Search Configuration", "/job-search-configuration", "Settings"),
      Leaf("Application Templates", "/application-templates", "FileText")])),
    NavItem("History", "", "History", Some([
      Leaf("Application History", "/application-history", "List"),
      Leaf("Analytics Dashboard", "/analytics-dashboard", "BarChart3")])),
    Leaf("Profile", "/profile-management", "User")]

  /** `isActiveRoute`: a missing path is never active. */
  predicate IsActiveRoute(pathname: String, path: String) {
    path != [] && pathname == path
  }

  /** `isParentActive`: an entry with children, one of which is active. */
  predicate IsParentActive(pathname: String, item: NavItem) {
    item.children.Some? && exists i | 0 <= i < |item.children.value| :: IsActiveRoute(pathname, item.children.value[i].path)
  }

  function ChildPaths(item: NavItem): (r: seq<String>)
    ensures item.children.None? ==> r == []
    ensures item.children.Some? ==> |r| == |item.children.value|
    ensures item.children.Some? ==> forall i | 0 <= i < |r| :: r[i] == item.children.value[i].path
  {
    match item.children
    case None => []
    case Some(cs) => seq(|cs|, i requires 0 <= i < |cs| => cs[i].path)
  }

  /** A parent is active exactly when the current path is one of its
      children's non-empty paths. */
  lemma ParentActiveIffChildPath(pathname: String, item: NavItem)
    ensures IsParentActive(pathname, item) <==> pathname != [] && pathname in ChildPaths(item)
  {
    if pathname != [] && pathname in ChildPaths(item) {
      var i :| 0 <= i < |ChildPaths(item)| && ChildPaths(item)[i] == pathname;
      assert IsActiveRoute(pathname, item.children.value[i].path);
    }
  }

  /** `handleNavigation`: navigates only to a non-empty path. */
  function Navigate(path: String): (r: Option<String>)
    ensures r.Some? <==> path != []
    ensures r.Some? ==> r.value == path
  {
    if path != [] then Some(path) else None
  }

  predicate HasChildren(item: NavItem) {
    item.children.Some? && |item.children.value| > 0
  }

  /** What a click on an entry does: the new expanded flag and where it goes. */
  datatype ClickResult = ClickResult(expanded: bool, navigateTo: Option<String>)

  /** A group opens or closes and goes nowhere; any other entry keeps its
      flag and goes to its path, if it has one. */
  function ClickItem(item: NavItem, expanded: bool): (r: ClickResult)
    ensures HasChildren(item) ==> r == ClickResult(!expanded, None)
    ensures !HasChildren(item) ==> r.expanded == expanded && r.navigateTo == Navigate(item.path)
  {
    if HasChildren(item) then ClickResult(!expanded, None)
    else if item.path != [] then ClickResult(expanded, Navigate(item.path))
    else ClickResult(expanded, None)
  }

  /** The expanded flag a group starts with. */
  function InitialExpanded(pathname: String, item: NavItem): bool {
    IsParentActive(pathname, item)
  }

  /** The effect run on every path change: it opens a group whose child is
      active and never closes one. */
  function SyncExpanded(pathname: String, item: NavItem, expanded: bool): (r: bool)
    ensures IsParentActive(pathname, item) ==> r
    ensures expanded ==> r
    ensures r ==> expanded || IsParentActive(pathname, item)
  {
    if IsParentActive(pathname, item) then true else expanded
  }

  /** Children are listed when the group has some, is open, and the sidebar
      is not collapsed. */
  predicate ShowsChildren(item: NavItem, expanded: bool, collapsed: bool) {
    HasChildren(item) && expanded && !collapsed
  }

  datatype Highlight = ActiveEntry | ActiveParent | Plain

  /** The entry's look: its own route active; else a top-level entry whose
      child is active; else plain. */
  function HighlightOf(pathname: String, item: NavItem, isChild: bool): (r: Highlight)
    ensures r == ActiveEntry <==> IsActiveRoute(pathname, item.path)
    ensures r == ActiveParent <==> !IsActiveRoute(pathname, item.path) && IsParentActive(pathname, item) && !isChild
  {
    if IsActiveRoute(pathname, item.path) then ActiveEntry
    else if IsParentActive(pathname, item) && !isChild then ActiveParent
    else Plain
  }

  /** Highlighted at the top level. */
  function TopHighlighted(pathname: String): NavItem -> bool {
    (item: NavItem) => HighlightOf(pathname, item, false) != Plain
  }

  /** The paths an entry leads to: its own, if any, then its children's. */
  function OwnPaths(item: NavItem): seq<String> {
    (if item.path != [] then [item.path] else []) + ChildPaths(item)
  }

  /** The paths the tree leads to, top-level entries first in their order,
      each followed by its children. */
  function TreePaths(items: seq<NavItem>): seq<String> {
    if items == [] then [] else OwnPaths(items[0]) + TreePaths(items[1..])
  }

  /** A top-level entry stands out exactly on the pages it leads to. */
  lemma TopHighlightedIffOwnPath(pathname: String, item: NavItem)
    requires pathname != []
    ensures TopHighlighted(pathname)(item) <==> pathname in OwnPaths(item)
  {
    ParentActiveIffChildPath(pathname, item);
  }

  /** In a tree that leads to every page at most once, a page of the tree
      highlights exactly one top-level entry and any other page none. */
  lemma {:induction false} HighlightCount(items: seq<NavItem>, pathname: String)
    requires pathname != [] && NoDuplicates(TreePaths(items))
    ensures Count(items, TopHighlighted(pathname)) == if pathname in TreePaths(items) then 1 else 0
    decreases |items|
  {
    if items != [] {
      var own, rest := OwnPaths(items[0]), TreePaths(items[1..]);
      NoDuplicatesConcat(own, rest);
      HighlightCount(items[1..], pathname);
      TopHighlightedIffOwnPath(pathname, items[0]);
    }
  }

  /** The six pages of the sidebar, in the order the tree lists them. */
  const SidebarPaths: seq<String> := [
    "/dashboard", "/job-search-configuration", "/application-templates",
    "/application-history", "/analytics-dashboard", "/profile-management"]

  lemma TreePathsOfNavigation()
    ensures TreePaths(NavigationItems) == SidebarPaths
  {
    var items := NavigationItems;
    assert items[3..][1..] == [];
    assert TreePaths(items[3..]) == ["/profile-management"];
    assert ChildPaths(items[2]) == ["/application-history", "/analytics-dashboard"];
    assert ChildPaths(items[1]) == ["/job-search-configuration", "/application-templates"];
  }

  /** Each page is reachable from exactly one entry. */
  lemma SidebarPathsDistinct()
    ensures NoDuplicates(SidebarPaths)
    ensures [] !in SidebarPaths && "/" !in SidebarPaths
  {
    var ps := SidebarPaths;
    assert |ps[0]| == 10 && |ps[1]| == 25 && |ps[2]| == 22;
    assert |ps[3]| == 20 && |ps[4]| == 20 && |ps[5]| == 19;
    assert ps[3][2] != ps[4][2];
  }

  /** On any page of the tree exactly one top-level entry stands out: the
      page's own entry or the group holding it. */
  lemma ExactlyOneHighlighted(pathname: String)
    requires pathname in TreePaths(NavigationItems)
    ensures Count(NavigationItems, TopHighlighted(pathname)) == 1
  {
    TreePathsOfNavigation();
    SidebarPathsDistinct();
    HighlightCount(NavigationItems, pathname);
  }

  /** The site root shows the dashboard page, yet no entry stands out. */
  lemma RootHighlightsNothing()
    ensures Count(NavigationItems, TopHighlighted("/")) == 0
  {
    TreePathsOfNavigation();
    SidebarPathsDistinct();
    HighlightCount(NavigationItems, "/");
  }

  /** A group first drawn on one of its children's pages is open, and its
      children are listed unless the sidebar is collapsed. */
  lemma GroupOpenOnChildPage(item: NavItem, i: nat, collapsed: bool)
    requires item.children.Some? && i < |item.children.value|
    requires item.children.value[i].path != []
    ensures var p := item.children.value[i].path;
            InitialExpanded(p, item) && (ShowsChildren(item, InitialExpanded(p, item), collapsed) <==> !collapsed)
  {
    assert IsActiveRoute(item.children.value[i].path, item.children.value[i].path);
  }

  /** Clicking a group twice restores its flag and never navigates. */
  lemma GroupClickTwice(item: NavItem, expanded: bool)
    requires HasChildren(item)
    ensures ClickItem(item, ClickItem(item, expanded).expanded) == ClickResult(expanded, None)
  {}

  predicate HasNoChildrenField(item: NavItem) { item.children.None? }

  /** The bottom bar lists the entries without a `children` field. */
  function MobileItems(items: seq<NavItem>): (r: seq<NavItem>)
    ensures forall x :: x in r <==> x in items && x.children.None?
  {
    Filter(items, HasNoChildrenField)
  }

  /** On small screens only the dashboard and the profile are direct links,
      and each goes to its page. */
  lemma MobileBar()
    ensures MobileItems(NavigationItems) == [NavigationItems[0], NavigationItems[3]]
    ensures forall x | x in MobileItems(NavigationItems) :: Navigate(x.path) == Some(x.path)
  {
    MobileBarItems();
    MobileBarPaths();
  }

  lemma MobileBarItems()
    ensures MobileItems(NavigationItems) == [NavigationItems[0], NavigationItems[3]]
  {
    MobileOfFour(NavigationItems);
  }

  lemma MobileBarPaths()
    ensures NavigationItems[0].path != [] && NavigationItems[3].path != []
  {}

  /** Of four entries whose middle two have a `children` field, the outer
      two are the bottom bar. */
  lemma MobileOfFour(items: seq<NavItem>)
    requires |items| == 4 && items[0].children.None? && items[3].children.None?
    requires items[1].children.Some? && items[2].children.Some?
    ensures MobileItems(items) == [items[0], items[3]]
  {
    assert items[1..][1..][1..][1..] == [];
    assert Filter(items[3..], HasNoChildrenField) == [items[3]];
    assert Filter(items[1..], HasNoChildrenField) == [items[3]];
  }
}
