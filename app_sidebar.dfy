/** The application sidebar: a fixed list of menu entries, each marked
    active when the current pathname starts with its `href`. */
module AppSidebar {

  datatype MenuItem = MenuItem(href: string, caption: string)

  predicate IsPrefix(p: string, s: string) { |p| <= |s| && s[..|p|] == p }

  /** The sidebar's menu, in display order. */
  const MenuItems: seq<MenuItem> := [
    MenuItem("/dashboard", "Dashboard"),
    MenuItem("/transactions", "Transactions"),
    MenuItem("/day-book", "Day Book"),
    MenuItem("/stock", "Stock Management"),
    MenuItem("/billing", "Billing"),
    MenuItem("/customers", "Customers"),
    MenuItem("/farmers", "Farmers"),
    MenuItem("/organizations", "Organizations"),
    MenuItem("/inventory-forecaster", "AI Forecaster")
  ]

  /** `pathname.startsWith(href)`: a raw prefix test, not aware of segments. */
  predicate IsActive(pathname: string, href: string)
  {
    IsPrefix(href, pathname)
  }

  /** One rendered menu entry. */
  datatype Entry = Entry(href: string, caption: string, active: bool)

  /** `menuItems.map(...)`: one entry per item, in menu order. */
  function Render(pathname: string, items: seq<MenuItem>): (entries: seq<Entry>)
    ensures |entries| == |items|
    ensures forall i :: 0 <= i < |items| ==>
      entries[i] == Entry(items[i].href, items[i].caption, IsActive(pathname, items[i].href))
  {
    if |items| == 0 then []
    else [Entry(items[0].href, items[0].caption, IsActive(pathname, items[0].href))] + Render(pathname, items[1..])
  }

  /** No href of the menu is a prefix of another one's. */
  predicate PrefixFree(items: seq<MenuItem>)
  {
    forall i, j :: 0 <= i < |items| && 0 <= j < |items| && i != j ==>
      !IsPrefix(items[i].href, items[j].href)
  }

  /** The menu's hrefs are pairwise distinct, each starts with `/` and is
      longer than `/` alone, and none is a prefix of another. */
  lemma MenuHrefsWellFormed()
    ensures forall i :: 0 <= i < |MenuItems| ==> |MenuItems[i].href| > 1 && MenuItems[i].href[0] == '/'
    ensures forall i, j :: 0 <= i < j < |MenuItems| ==> MenuItems[i].href != MenuItems[j].href
    ensures PrefixFree(MenuItems)
  {
    forall i, j | 0 <= i < |MenuItems| && 0 <= j < |MenuItems| && i != j
      ensures !IsPrefix(MenuItems[i].href, MenuItems[j].href)
    {
      // Every href starts with `/` followed by a letter, and no two share that letter
      // except "/day-book" and "/dashboard", which part at their fourth character.
      var a, b := MenuItems[i].href, MenuItems[j].href;
      assert a[1] != b[1] || a[3] != b[3];
    }
  }

  /** Two prefixes of one string: the shorter is a prefix of the longer. */
  lemma PrefixesComparable(p: string, q: string, s: string)
    requires IsPrefix(p, s) && IsPrefix(q, s) && |p| <= |q|
    ensures IsPrefix(p, q)
  {
    assert q[..|p|] == s[..|q|][..|p|] == s[..|p|];
  }

  /** With a prefix-free menu, at most one item is active for any pathname. */
  lemma AtMostOneActive(pathname: string, items: seq<MenuItem>, i: nat, j: nat)
    requires PrefixFree(items)
    requires i < |items| && j < |items|
    requires IsActive(pathname, items[i].href) && IsActive(pathname, items[j].href)
    ensures i == j
  {
    if i != j {
      if |items[i].href| <= |items[j].href| {
        PrefixesComparable(items[i].href, items[j].href, pathname);
      } else {
        PrefixesComparable(items[j].href, items[i].href, pathname);
      }
    }
  }

  /** For the sidebar's own menu, at most one rendered entry is active. */
  lemma SidebarAtMostOneActive(pathname: string)
    ensures forall i, j ::
      (0 <= i < |MenuItems| && 0 <= j < |MenuItems| &&
       Render(pathname, MenuItems)[i].active && Render(pathname, MenuItems)[j].active) ==> i == j
  {
    MenuHrefsWellFormed();
    forall i, j | 0 <= i < |MenuItems| && 0 <= j < |MenuItems| &&
      Render(pathname, MenuItems)[i].active && Render(pathname, MenuItems)[j].active
      ensures i == j
    {
      AtMostOneActive(pathname, MenuItems, i, j);
    }
  }

  /** The root path activates no item, and matching is by raw prefix:
      "/stock-levels" activates Stock Management and "/dashboard/x" activates Dashboard. */
  lemma ActiveExamples()
    ensures forall i :: 0 <= i < |MenuItems| ==> !IsActive("/", MenuItems[i].href)
    ensures IsActive("/stock-levels", MenuItems[3].href) && MenuItems[3].caption == "Stock Management"
    ensures IsActive("/dashboard/x", MenuItems[0].href) && MenuItems[0].caption == "Dashboard"
  {
    MenuHrefsWellFormed();
    assert "/stock-levels"[..6] == "/stock";
    assert "/dashboard/x"[..10] == "/dashboard";
  }
}
