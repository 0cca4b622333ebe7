/** The client console's navigation bar: the mobile menu and logout. */
module ClientNavbar {
  import opened Common
  import opened Browser

  /** `isActive(path)`: the current location is exactly `path`. */
  predicate IsActive(pathname: string, path: string) {
    pathname == path
  }

  class Navbar {
    const hasSetter: bool
    var isMobileMenuOpen: bool

    constructor (hasSetter: bool)
      ensures this.hasSetter == hasSetter && !isMobileMenuOpen
    {
      this.hasSetter := hasSetter;
      isMobileMenuOpen := false;
    }

    method ToggleMobileMenu()
      modifies this`isMobileMenuOpen
      ensures isMobileMenuOpen == !old(isMobileMenuOpen)
    {
      isMobileMenuOpen := !isMobileMenuOpen;
    }

    /** `handleLogout`: remove exactly the three session keys, call
        `setIsLoggedIn(false)` only when it was passed, dispatch
        `app-logout`, go to `/login`, close the menu. */
    method HandleLogout(storage: Storage) returns (fx: Effects)
      modifies storage, this`isMobileMenuOpen
      ensures storage.items == old(storage.items) - SessionKeys
      ensures !HasSession(storage.items)
      ensures fx == Effects(if hasSetter then Some(false) else None, [AppLogout], Some("/login"))
      ensures !isMobileMenuOpen
    {
      storage.ClearSession();
      fx := Effects(if hasSetter then Some(false) else None, [AppLogout], Some("/login"));
      isMobileMenuOpen := false;
    }
  }
}
