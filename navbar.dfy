/** The Navbar: the mobile menu flag, the one open dropdown, and the rules
    by which links, toggles and logout close them. */
module Navbar {
  import opened Wrappers
  import opened AuthContext

  /** The two dropdowns, 'explore' and 'account'. */
  datatype Dropdown = Explore | Account

  /** toggleDropdown's new value: the same dropdown again closes it, any
      other opens it in place of the one that was open. */
  function Toggled(active: Option<Dropdown>, d: Dropdown): (r: Option<Dropdown>)
    ensures r == Some(d) <==> active != Some(d)
    ensures r.Some? ==> r.value == d
  {
    if active == Some(d) then None else Some(d)
  }

  /** Toggling the same dropdown twice restores the previous state when that
      dropdown was open or none was; from the other dropdown it ends closed. */
  lemma ToggleTwice(active: Option<Dropdown>, d: Dropdown)
    ensures active == Some(d) || active == None ==> Toggled(Toggled(active, d), d) == active
    ensures active.Some? && active != Some(d) ==> Toggled(Toggled(active, d), d) == None
  {
  }

  class Menu {
    var isMenuOpen: bool
    var activeDropdown: Option<Dropdown>

    constructor ()
      ensures !isMenuOpen && activeDropdown == None
    {
      isMenuOpen := false;
      activeDropdown := None;
    }

    /** toggleMenu: flips the menu; opening it (the old value was false)
        closes the dropdown, closing it leaves the dropdown as it was. */
    method ToggleMenu()
      modifies this
      ensures isMenuOpen == !old(isMenuOpen)
      ensures isMenuOpen ==> activeDropdown == None
      ensures !isMenuOpen ==> activeDropdown == old(activeDropdown)
    {
      var wasOpen := isMenuOpen;
      isMenuOpen := !wasOpen;
      if !wasOpen {
        activeDropdown := None;
      }
    }

    /** toggleDropdown(d); the menu flag is untouched. */
    method ToggleDropdown(d: Dropdown)
      modifies this`activeDropdown
      ensures activeDropdown == Toggled(old(activeDropdown), d)
    {
      activeDropdown := if activeDropdown == Some(d) then None else Some(d);
    }

    /** A top-level link (Home, Products, Shop, Contact) closes only the menu. */
    method FollowTopLink()
      modifies this`isMenuOpen
      ensures !isMenuOpen
    {
      isMenuOpen := false;
    }

    /** An entry inside a dropdown (Events, Careers, Portfolio, Blogs, Profile,
        Login, Sign Up) closes the menu and the dropdown. */
    method FollowDropdownLink()
      modifies this
      ensures !isMenuOpen && activeDropdown == None
    {
      isMenuOpen := false;
      activeDropdown := None;
    }

    /** handleLogout: awaits logout (which never rethrows), then closes the
        menu and the dropdown. */
    method HandleLogout(session: Session, response: Outcome<()>)
      modifies this, session
      ensures session.Current() == LogoutStep(old(session.Current()), response)
      ensures !isMenuOpen && activeDropdown == None
    {
      session.Logout(response);
      isMenuOpen := false;
      activeDropdown := None;
    }
  }
}
