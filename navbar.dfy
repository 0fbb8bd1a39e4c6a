/** The mobile menu of the navigation bar (src/components/Navbar.jsx). */
module Navbar {

  /** The icon on the mobile menu button. */
  datatype Icon = MenuIcon | CloseIcon

  /** The button shows the close icon exactly when the menu is open. */
  function ButtonIcon(isOpen: bool): (icon: Icon)
    ensures icon == CloseIcon <==> isOpen
  {
    if isOpen then CloseIcon else MenuIcon
  }

  /** The navigation bar's `isMobileMenuOpen`. */
  class NavigationBar {
    var isMobileMenuOpen: bool

    /** The menu starts closed. */
    constructor ()
      ensures !isMobileMenuOpen
    {
      isMobileMenuOpen := false;
    }

    /** `toggleMobileMenu`. */
    method ToggleMobileMenu()
      modifies this
      ensures isMobileMenuOpen == !old(isMobileMenuOpen)
    {
      isMobileMenuOpen := !isMobileMenuOpen;
    }

    /** The `onClick` of every link in the mobile list. */
    method ClickMobileLink()
      modifies this
      ensures !isMobileMenuOpen
    {
      isMobileMenuOpen := false;
    }

    /** The mobile link list is rendered only while the menu is open, that
        is exactly while the button shows the close icon. */
    predicate MobileLinksShown()
      reads this
      ensures MobileLinksShown() <==> ButtonIcon(isMobileMenuOpen) == CloseIcon
    {
      isMobileMenuOpen
    }
  }

  /** Two presses of the menu button restore the menu. */
  method ToggleTwice(nav: NavigationBar)
    modifies nav
    ensures nav.isMobileMenuOpen == old(nav.isMobileMenuOpen)
  {
    nav.ToggleMobileMenu();
    nav.ToggleMobileMenu();
  }

  /** Opening the menu shows the links and the close icon; following a link
      hides them again and brings the menu icon back. */
  method OpenThenFollowLink() returns (shownWhenOpen: bool, iconWhenOpen: Icon, shownAfter: bool, iconAfter: Icon)
    ensures shownWhenOpen && iconWhenOpen == CloseIcon
    ensures !shownAfter && iconAfter == MenuIcon
  {
    var nav := new NavigationBar();
    nav.ToggleMobileMenu();
    shownWhenOpen, iconWhenOpen := nav.MobileLinksShown(), ButtonIcon(nav.isMobileMenuOpen);
    nav.ClickMobileLink();
    shownAfter, iconAfter := nav.MobileLinksShown(), ButtonIcon(nav.isMobileMenuOpen);
  }
}
