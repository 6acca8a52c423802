/**
 * The site header (src/components/Header/Header.tsx): the mobile menu's
 * open/closed flag and the handlers that flip or clear it. Scrolling the
 * window is returned as a request instead of being performed.
 */
module Header {

  /** The path of the landing page, where a logo click scrolls to the top. */
  const HomePath := "/"

  /** The seven navigation links, every one of which closes the menu on click. */
  const NavPaths: seq<string> := ["/", "/skills", "/projects", "/academic", "/activities", "/blog", "/contact"]

  class MobileMenu {
    var isMenuOpen: bool

    constructor ()
      ensures !isMenuOpen
    {
      isMenuOpen := false;
    }

    /** `toggleMenu`: open a closed menu, close an open one. */
    method ToggleMenu()
      modifies this
      ensures isMenuOpen == !old(isMenuOpen)
    {
      isMenuOpen := !isMenuOpen;
    }

    /** `closeMenu`, also the overlay's click handler. */
    method CloseMenu()
      modifies this
      ensures !isMenuOpen
    {
      isMenuOpen := false;
    }

    /** `handleLogoClick`: scroll to the top only on the landing page, and close the menu either way. */
    method HandleLogoClick(pathname: string) returns (scrollToTop: bool)
      modifies this
      ensures scrollToTop <==> pathname == HomePath
      ensures !isMenuOpen
    {
      scrollToTop := pathname == HomePath;
      CloseMenu();
    }

    /** A click on any of the navigation links. */
    method NavLinkClick(to: string)
      requires to in NavPaths
      modifies this
      ensures !isMenuOpen
    {
      CloseMenu();
    }
  }

  /** Toggling twice restores the flag. */
  method ToggleTwiceRestores(menu: MobileMenu)
    modifies menu
    ensures menu.isMenuOpen == old(menu.isMenuOpen)
  {
    menu.ToggleMenu();
    menu.ToggleMenu();
  }

  /** Closing twice leaves the menu as closing once does. */
  method CloseIsIdempotent(menu: MobileMenu)
    modifies menu
    ensures !menu.isMenuOpen
  {
    menu.CloseMenu();
    var once := menu.isMenuOpen;
    menu.CloseMenu();
    assert menu.isMenuOpen == once;
  }
}
