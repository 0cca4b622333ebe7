/** The admin console's navigation bar: the mobile menu and the
    Applications dropdown, logout, and which entries are rendered. */
module AdminNavbar {
  import opened Common
  import opened Browser

  /** The paths that highlight the Applications button. */
  const ApplicationsPaths: set<string> := {"/applications", "/applications/pending", "/applications/approved"}

  datatype NavEntry = ApplicationsMenu | LogoutButton | LoginLink | SignupLink | LoginButton

  /** `isActive(path)`: the current location is exactly `path`. */
  predicate IsActive(pathname: string, path: string) {
    pathname == path
  }

  predicate ApplicationsHighlighted(pathname: string)
    ensures ApplicationsHighlighted(pathname) <==> pathname in ApplicationsPaths
  {
    IsActive(pathname, "/applications") || IsActive(pathname, "/applications/pending") ||
    IsActive(pathname, "/applications/approved")
  }

  /** The desktop entries: the logged-in branch only when the `isLoggedIn`
      prop is truthy (`None` stands for a prop that was not passed). */
  function DesktopEntries(isLoggedInProp: Option<bool>): (entries: seq<NavEntry>)
    ensures LogoutButton in entries <==> isLoggedInProp == Some(true)
    ensures isLoggedInProp != Some(true) ==> entries == [LoginLink, SignupLink, LoginButton]
  {
    if isLoggedInProp == Some(true) then [ApplicationsMenu, LogoutButton]
    else [LoginLink, SignupLink, LoginButton]
  }

  class Navbar {
    const hasSetter: bool
    const isLoggedInProp: Option<bool>
    var isMobileMenuOpen: bool
    var isApplicationsDropdownOpen: bool

    constructor (hasSetter: bool, isLoggedInProp: Option<bool>)
      ensures this.hasSetter == hasSetter && this.isLoggedInProp == isLoggedInProp
      ensures !isMobileMenuOpen && !isApplicationsDropdownOpen
    {
      this.hasSetter := hasSetter;
      this.isLoggedInProp := isLoggedInProp;
      isMobileMenuOpen := false;
      isApplicationsDropdownOpen := false;
    }

    /** The mobile menu and the dropdown are never open together. */
    predicate MenusExclusive()
      reads this
    {
      !(isMobileMenuOpen && isApplicationsDropdownOpen)
    }

    /** Opening the mobile menu closes the dropdown. */
    method ToggleMobileMenu()
      modifies this`isMobileMenuOpen, this`isApplicationsDropdownOpen
      ensures isMobileMenuOpen == !old(isMobileMenuOpen)
      ensures isApplicationsDropdownOpen == (old(isMobileMenuOpen) && old(isApplicationsDropdownOpen))
      ensures MenusExclusive()
    {
      var wasOpen := isMobileMenuOpen;
      isMobileMenuOpen := !wasOpen;
      if !wasOpen {
        isApplicationsDropdownOpen := false;
      }
    }

    /** Opening the dropdown closes the mobile menu. */
    method ToggleApplicationsDropdown()
      modifies this`isMobileMenuOpen, this`isApplicationsDropdownOpen
      ensures isApplicationsDropdownOpen == !old(isApplicationsDropdownOpen)
      ensures isMobileMenuOpen == (old(isApplicationsDropdownOpen) && old(isMobileMenuOpen))
      ensures MenusExclusive()
    {
      var wasOpen := isApplicationsDropdownOpen;
      isApplicationsDropdownOpen := !wasOpen;
      if !wasOpen {
        isMobileMenuOpen := false;
      }
    }

    /** `handleLogout`: remove the three keys, call `setIsLoggedIn(true)`
        when given, dispatch `app-logout`, go to `/login`, close both menus. */
    method HandleLogout(storage: Storage) returns (fx: Effects)
      modifies storage, this`isMobileMenuOpen, this`isApplicationsDropdownOpen
      ensures storage.items == old(storage.items) - SessionKeys
      ensures fx == Effects(if hasSetter then Some(true) else None, [AppLogout], Some("/login"))
      ensures !isMobileMenuOpen && !isApplicationsDropdownOpen
    {
      storage.ClearSession();
      fx := Effects(if hasSetter then Some(true) else None, [AppLogout], Some("/login"));
      isMobileMenuOpen := false;
      isApplicationsDropdownOpen := false;
    }

    /** A mouse-down outside the dropdown's list item closes the dropdown;
        the item (and so its ref) exists only in the logged-in branch. */
    method HandleClickOutside(insideDropdown: bool)
      modifies this`isApplicationsDropdownOpen
      ensures isApplicationsDropdownOpen ==
              if isLoggedInProp == Some(true) && !insideDropdown then false else old(isApplicationsDropdownOpen)
      ensures old(MenusExclusive()) ==> MenusExclusive()
    {
      if isLoggedInProp == Some(true) && !insideDropdown {
        isApplicationsDropdownOpen := false;
      }
    }

    /** Following a link inside a menu closes both menus. */
    method HandleDropdownLinkClick()
      modifies this`isMobileMenuOpen, this`isApplicationsDropdownOpen
      ensures !isMobileMenuOpen && !isApplicationsDropdownOpen
    {
      isApplicationsDropdownOpen := false;
      isMobileMenuOpen := false;
    }

    /** The entries this bar renders on the desktop. */
    function Entries(): (entries: seq<NavEntry>)
      ensures LogoutButton in entries <==> isLoggedInProp == Some(true)
    {
      DesktopEntries(isLoggedInProp)
    }
  }

  /** Any sequence of handler calls from the initial state keeps the menus exclusive. */
  method HandlerSequence(nav: Navbar, storage: Storage, steps: seq<nat>)
    requires nav.MenusExclusive()
    modifies nav, storage
    ensures nav.MenusExclusive()
  {
    for i := 0 to |steps|
      invariant nav.MenusExclusive()
    {
      match steps[i] % 5
      case 0 => nav.ToggleMobileMenu();
      case 1 => nav.ToggleApplicationsDropdown();
      case 2 => var _ := nav.HandleLogout(storage);
      case 3 => nav.HandleClickOutside(false);
      case _ => nav.HandleDropdownLinkClick();
    }
  }
}
