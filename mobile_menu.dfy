/** The mobile menu (`src/components/layout/MobileMenu.tsx`): one open
    submenu at a time, and the tests that highlight the current page. */
module MobileMenu {
  import opened Wrappers
  import Accordion
  import Text

  datatype DropdownItem = DropdownItem(name: string, path: string)
  datatype NavLink = NavLink(name: string, path: string, dropdown: Option<seq<DropdownItem>>)

  /** A dropdown parent is highlighted when the pathname contains its path. */
  function DropdownActive(pathname: string, link: NavLink): (b: bool)
    ensures b <==> exists i :: Text.OccursAt(pathname, link.path, i)
  {
    Text.ContainsIff(pathname, link.path);
    Text.Contains(pathname, link.path)
  }

  /** Plain links and dropdown items are highlighted only on an exact match. */
  function PathActive(pathname: string, path: string): bool {
    pathname == path
  }

  /** A parent whose path is a prefix of the pathname is highlighted even
      though it is not the current page. */
  lemma NestedPathHighlightsParent()
    ensures var shop := NavLink("Shop", "/shop", Some([DropdownItem("Tees", "/shop/tees")]));
            DropdownActive("/shop/tees", shop) && !PathActive("/shop/tees", shop.path)
  {
    assert Text.OccursAt("/shop/tees", "/shop", 0);
  }

  class Menu {
    var openSubmenu: Option<string>

    constructor ()
      ensures openSubmenu == None
    {
      openSubmenu := None;
    }

    method ToggleSubmenu(linkName: string)
      modifies this
      ensures openSubmenu == Accordion.Toggle(old(openSubmenu), linkName)
    {
      openSubmenu := Accordion.Toggle(openSubmenu, linkName);
    }

    /** The items listed under `link`: all of them while it is the open
        submenu, none otherwise (and none for a link without a dropdown). */
    function ShownItems(link: NavLink): (r: seq<DropdownItem>)
      reads this
      ensures r != [] ==> openSubmenu == Some(link.name) && link.dropdown == Some(r)
      ensures openSubmenu == Some(link.name) && link.dropdown.Some? ==> r == link.dropdown.value
    {
      if link.dropdown.Some? && openSubmenu == Some(link.name) then link.dropdown.value else []
    }
  }
}
