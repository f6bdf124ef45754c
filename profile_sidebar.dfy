/** The account sidebar (`components/layout/profile-sidebar.tsx`): which menu entry
    is highlighted for the current path. */
module ProfileSidebar {
  import opened Text

  datatype MenuItem = MenuItem(title: string, href: string, exact: bool)

  /** `menuItems`: only the dashboard needs an exact match. */
  const MenuItems: seq<MenuItem> := [
    MenuItem("Mon Tableau de Bord", "/profile", true),
    MenuItem("Mes Commandes", "/profile/orders", false),
    MenuItem("Mes Informations", "/profile/details", false)]

  /** `isActive`: equality for an exact entry, a plain prefix test otherwise. */
  predicate IsActive(pathname: string, item: MenuItem) {
    if item.exact then pathname == item.href else StartsWith(pathname, item.href)
  }

  /** Activity by equality implies activity by prefix for the same link. */
  lemma ExactImpliesPrefix(pathname: string, item: MenuItem)
    requires IsActive(pathname, item)
    ensures StartsWith(pathname, item.href)
  {
  }

  /** Extending the path keeps a prefix entry active: the test ignores segment
      boundaries. */
  lemma PrefixActiveOnExtension(pathname: string, suffix: string, item: MenuItem)
    requires !item.exact && IsActive(pathname, item)
    ensures IsActive(pathname + suffix, item)
  {
    assert (pathname + suffix)[..|item.href|] == pathname[..|item.href|];
  }

  /** "/profile/detailsX" highlights the details entry. */
  lemma NoSegmentBoundary()
    ensures IsActive("/profile/detailsX", MenuItems[2])
  {
    PrefixActiveOnExtension("/profile/details", "X", MenuItems[2]);
    assert "/profile/details" + "X" == "/profile/detailsX";
  }

  /** Anywhere under "/profile/orders" the orders entry is lit and the dashboard is
      not; the dashboard is lit exactly on "/profile". */
  lemma OrdersPagesHighlightOrders(rest: string)
    ensures IsActive("/profile/orders" + rest, MenuItems[1])
    ensures !IsActive("/profile/orders" + rest, MenuItems[0])
    ensures forall p :: IsActive(p, MenuItems[0]) <==> p == "/profile"
  {
    PrefixActiveOnExtension("/profile/orders", rest, MenuItems[1]);
    assert |"/profile/orders" + rest| != |"/profile"|;
  }
}
