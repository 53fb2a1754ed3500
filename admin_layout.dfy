/** The `AdminLayout` shell: the sidebar's navigation items, which of them counts as
    active for the current address, the header title derived from them, the mobile
    sidebar toggle and the logout sequence. */
module AdminLayout {
  import opened Types
  import opened Text

  /** `NavItem`, without its icon. `exact` asks the sidebar link to match the address
      exactly rather than as a prefix. */
  datatype NavItem = NavItem(name: string, path: string, exact: bool)

  const NAV_ITEMS: seq<NavItem> := [
    NavItem("Dashboard", "/admin", true),
    NavItem("Print Queue", "/admin/print-queue", false),
    NavItem("All Orders", "/admin/orders", false),
    NavItem("Statistics", "/admin/statistics", false),
    NavItem("Settings", "/admin/settings", false)
  ]

  const FALLBACK_TITLE := "Admin Panel"

  /** `isActive(path)`: the address starts with the path. */
  predicate IsActive(pathname: string, path: string) {
    StartsWith(pathname, path)
  }

  /** `items.find(...)` with a test on the item: the first item that passes. */
  function FindFirst(items: seq<NavItem>, test: NavItem -> bool): (found: Option<nat>)
    ensures found.Some? ==> found.value < |items| && test(items[found.value])
    ensures found.Some? ==> forall k :: 0 <= k < found.value ==> !test(items[k])
    ensures found.None? ==> forall k :: 0 <= k < |items| ==> !test(items[k])
  {
    if items == [] then None
    else if test(items[0]) then Some(0)
    else
      var rest := FindFirst(items[1..], test);
      if rest.Some? then Some(rest.value + 1) else None
  }

  /** The title for the first item whose test passes, or the fallback. */
  function TitleBy(pathname: string, test: NavItem -> bool): string {
    var found := FindFirst(NAV_ITEMS, test);
    if found.Some? then NAV_ITEMS[found.value].name else FALLBACK_TITLE
  }

  /** The header title as written: the first item `isActive` accepts. */
  function PageTitle(pathname: string): string {
    TitleBy(pathname, (item: NavItem) => IsActive(pathname, item.path))
  }

  /** Every item's path begins with "/admin", so the first item, "Dashboard", is active
      wherever any item is: every admin address is titled "Dashboard" and every other
      address "Admin Panel". */
  lemma TitleIsDashboardOrFallback(pathname: string)
    ensures StartsWith(pathname, "/admin") ==> PageTitle(pathname) == "Dashboard"
    ensures !StartsWith(pathname, "/admin") ==> PageTitle(pathname) == FALLBACK_TITLE
  {
    var test := (item: NavItem) => IsActive(pathname, item.path);
    var found := FindFirst(NAV_ITEMS, test);
    if StartsWith(pathname, "/admin") {
      assert test(NAV_ITEMS[0]);
      assert found == Some(0);
    } else {
      forall k | 0 <= k < |NAV_ITEMS| ensures !test(NAV_ITEMS[k]) {
        PathsUnderAdmin(k);
        if test(NAV_ITEMS[k]) {
          PrefixOfPrefix(pathname, NAV_ITEMS[k].path, "/admin");
        }
      }
    }
  }

  /** Every item's path begins with "/admin". */
  lemma PathsUnderAdmin(k: nat)
    requires k < |NAV_ITEMS|
    ensures StartsWith(NAV_ITEMS[k].path, "/admin")
  {
    assert NAV_ITEMS[k].path[..6] == "/admin";
  }

  /** A string starting with `p` starts with every prefix of `p`. */
  lemma PrefixOfPrefix(s: string, p: string, q: string)
    requires StartsWith(p, q) && StartsWith(s, p)
    ensures StartsWith(s, q)
  {
    assert s[..|q|] == p[..|p|][..|q|];
  }

  /** How the sidebar link of an item decides that it is active: an exact item only on
      its own address, any other item on its address and the addresses below it. */
  predicate LinkActive(pathname: string, item: NavItem) {
    if item.exact then pathname == item.path
    else pathname == item.path || StartsWith(pathname, item.path + "/")
  }

  /** The header title taken from the item the sidebar highlights. */
  function HighlightedTitle(pathname: string): string {
    TitleBy(pathname, (item: NavItem) => LinkActive(pathname, item))
  }

  /** On the print-queue page the sidebar highlights "Print Queue" but the header,
      which ignores `exact`, reads "Dashboard". */
  lemma PrintQueueTitleMismatch()
    ensures PageTitle("/admin/print-queue") == "Dashboard"
    ensures HighlightedTitle("/admin/print-queue") == "Print Queue"
  {
    TitleIsDashboardOrFallback("/admin/print-queue");
    var test := (item: NavItem) => LinkActive("/admin/print-queue", item);
    assert !test(NAV_ITEMS[0]);
    assert test(NAV_ITEMS[1]);
    assert FindFirst(NAV_ITEMS, test) == Some(1);
  }

  /** With the sidebar's rule every item's own page carries that item's name. */
  lemma {:induction false} HighlightedTitleNamesOwnPage(i: nat)
    requires i < |NAV_ITEMS|
    ensures HighlightedTitle(NAV_ITEMS[i].path) == NAV_ITEMS[i].name
  {
    var pathname := NAV_ITEMS[i].path;
    var test := (item: NavItem) => LinkActive(pathname, item);
    assert test(NAV_ITEMS[i]);
    forall k | 0 <= k < i ensures !test(NAV_ITEMS[k]) {
      assert NAV_ITEMS[k].path != pathname;
      if k > 0 {
        NotBelow(k, i);
      }
    }
    var found := FindFirst(NAV_ITEMS, test);
    assert found == Some(i);
  }

  /** No item's address lies below the address of a non-exact item listed before it. */
  lemma NotBelow(k: nat, i: nat)
    requires 0 < k < i < |NAV_ITEMS|
    ensures !StartsWith(NAV_ITEMS[i].path, NAV_ITEMS[k].path + "/")
  {
    var p, q := NAV_ITEMS[i].path, NAV_ITEMS[k].path;
    if |q + "/"| <= |p| {
      assert p[7] == 's' && q[7] == 'o';
      assert (q + "/")[7] == q[7];
    }
  }

  /** What logging out does, in order. */
  datatype Effect = ClearSession | Navigate(path: string)

  const LOGIN_PATH := "/login"

  /** The layout's own state. */
  class Layout {
    var sidebarOpen: bool

    constructor ()
      ensures !sidebarOpen
    {
      sidebarOpen := false;
    }

    /** The menu button. */
    method OpenSidebar()
      modifies this
      ensures sidebarOpen
    {
      sidebarOpen := true;
    }

    /** The backdrop and the close button. */
    method CloseSidebar()
      modifies this
      ensures !sidebarOpen
    {
      sidebarOpen := false;
    }

    /** `handleLogout`: the session is cleared first, then the login page is shown. */
    method HandleLogout() returns (effects: seq<Effect>)
      ensures |effects| == 2 && effects[0] == ClearSession && effects[1] == Navigate(LOGIN_PATH)
    {
      effects := [ClearSession];
      effects := effects + [Navigate(LOGIN_PATH)];
    }
  }
}
