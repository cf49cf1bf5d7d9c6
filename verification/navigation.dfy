/**
 * Navigation behaviour of the site script: the mobile menu (hamburger
 * button, menu list and the body's scroll lock), the handlers that close
 * it, and the navbar flags recomputed on every scroll event.
 */
module Navigation {
  import Theme

  const Active := "active"
  const Scrolled := "scrolled"
  const HiddenTransform := "translateY(-100%)"
  const ShownTransform := "translateY(0)"

  // ---------------------------------------------------------------------
  // Mobile menu
  // ---------------------------------------------------------------------

  /** `classList.toggle(c)`: `c` flips, every other class stays. */
  function ToggleClass(classes: set<string>, c: string): (r: set<string>)
    ensures c in r <==> c !in classes
    ensures r - {c} == classes - {c}
  {
    if c in classes then classes - {c} else classes + {c}
  }

  /** The class lists of the hamburger button and of the menu, and `document.body.style.overflow`. */
  datatype MenuState = MenuState(hamburger: set<string>, navMenu: set<string>, overflow: string)
  {
    predicate IsOpen() { Active in navMenu }

    /**
     * Both buttons carry `active` together, only when both elements exist,
     * and the page scroll is locked exactly while the menu is open.
     */
    predicate WellFormed(present: bool)
    {
      (Active in hamburger <==> Active in navMenu) &&
      (IsOpen() ==> present) &&
      overflow == (if IsOpen() then "hidden" else "")
    }
  }

  /** `toggleMobileMenu`; `present` says that both the hamburger and the menu exist. */
  function Toggled(st: MenuState, present: bool): (r: MenuState)
    ensures !present ==> r == st
    ensures present ==> (Active in r.hamburger <==> Active !in st.hamburger) &&
                        (r.IsOpen() <==> !st.IsOpen()) &&
                        r.hamburger - {Active} == st.hamburger - {Active} &&
                        r.navMenu - {Active} == st.navMenu - {Active} &&
                        r.overflow == (if r.IsOpen() then "hidden" else "")
  {
    if !present then st
    else
      var navMenu := ToggleClass(st.navMenu, Active);
      MenuState(ToggleClass(st.hamburger, Active), navMenu, if Active in navMenu then "hidden" else "")
  }

  /** `closeMobileMenu`. */
  function Closed(st: MenuState, present: bool): (r: MenuState)
    ensures !present ==> r == st
    ensures present ==> Active !in r.hamburger && !r.IsOpen() && r.overflow == "" &&
                        r.hamburger - {Active} == st.hamburger - {Active} &&
                        r.navMenu - {Active} == st.navMenu - {Active}
  {
    if !present then st
    else MenuState(st.hamburger - {Active}, st.navMenu - {Active}, "")
  }

  /** A toggle flips the menu, keeps both buttons in step and sets the scroll lock to match. */
  lemma ToggleFlips(st: MenuState, present: bool)
    requires st.WellFormed(present) && present
    ensures Toggled(st, present).IsOpen() == !st.IsOpen()
    ensures Toggled(st, present).WellFormed(present)
    ensures Toggled(st, present).hamburger - {Active} == st.hamburger - {Active}
    ensures Toggled(st, present).navMenu - {Active} == st.navMenu - {Active}
  {
  }

  /** Two toggles restore the state. */
  lemma ToggleTwice(st: MenuState, present: bool)
    requires st.WellFormed(present)
    ensures Toggled(Toggled(st, present), present) == st
  {
    if present {
      var h, n := st.hamburger, st.navMenu;
      assert ToggleClass(ToggleClass(h, Active), Active) == h;
      assert ToggleClass(ToggleClass(n, Active), Active) == n;
    }
  }

  /** Closing leaves the menu closed and well formed, keeps other classes, and a second close changes nothing. */
  lemma CloseIdempotent(st: MenuState, present: bool)
    requires st.WellFormed(present)
    ensures !Closed(st, present).IsOpen() && Closed(st, present).WellFormed(present)
    ensures Closed(Closed(st, present), present) == Closed(st, present)
    ensures !st.IsOpen() ==> Closed(st, present) == st
  {
  }

  /** Without either element the menu functions do nothing. */
  lemma AbsentElementsNoOp(st: MenuState)
    ensures Toggled(st, false) == st && Closed(st, false) == st
  {
  }

  /** The menu elements of the page and the body's `overflow` style. */
  class MobileMenu {
    const hasHamburger: bool
    const hasNavMenu: bool
    var hamburgerClasses: set<string>
    var navMenuClasses: set<string>
    var bodyOverflow: string

    function State(): MenuState
      reads this
    {
      MenuState(hamburgerClasses, navMenuClasses, bodyOverflow)
    }

    function Present(): bool
    {
      hasHamburger && hasNavMenu
    }

    ghost predicate Valid()
      reads this
    {
      State().WellFormed(Present())
    }

    /** The page as loaded: the menu is closed and the body's overflow is unset. */
    constructor (hasHamburger: bool, hasNavMenu: bool, hamburgerClasses: set<string>, navMenuClasses: set<string>)
      requires Active !in hamburgerClasses && Active !in navMenuClasses
      ensures Valid() && !State().IsOpen()
      ensures this.hasHamburger == hasHamburger && this.hasNavMenu == hasNavMenu
      ensures this.hamburgerClasses == hamburgerClasses && this.navMenuClasses == navMenuClasses
    {
      this.hasHamburger := hasHamburger;
      this.hasNavMenu := hasNavMenu;
      this.hamburgerClasses := hamburgerClasses;
      this.navMenuClasses := navMenuClasses;
      bodyOverflow := "";
    }

    method ToggleMobileMenu()
      requires Valid()
      modifies this
      ensures Valid()
      ensures State() == Toggled(old(State()), Present())
    {
      if hasHamburger && hasNavMenu {
        hamburgerClasses := ToggleClass(hamburgerClasses, Active);
        navMenuClasses := ToggleClass(navMenuClasses, Active);
        if Active in navMenuClasses {
          bodyOverflow := "hidden";
        } else {
          bodyOverflow := "";
        }
      }
    }

    method CloseMobileMenu()
      requires Valid()
      modifies this
      ensures Valid()
      ensures State() == Closed(old(State()), Present())
    {
      if hasHamburger && hasNavMenu {
        hamburgerClasses := hamburgerClasses - {Active};
        navMenuClasses := navMenuClasses - {Active};
        bodyOverflow := "";
      }
    }

    /**
     * `handleOutsideClick`; the two flags say whether the click target lies
     * inside the menu or the hamburger. An open menu implies a hamburger, so
     * the handler never reaches `hamburger.contains` on a missing element.
     */
    method HandleOutsideClick(inNavMenu: bool, inHamburger: bool)
      requires Valid()
      modifies this
      ensures Valid()
      ensures State() == if old(State().IsOpen()) && !inNavMenu && !inHamburger
                         then Closed(old(State()), Present()) else old(State())
    {
      if hasNavMenu && Active in navMenuClasses {
        assert hasHamburger;
        if !inNavMenu && !inHamburger {
          CloseMobileMenu();
        }
      }
    }

    /** The resize handler (after its debounce): a window wider than 768 pixels closes the menu. */
    method HandleResize(innerWidth: int)
      requires Valid()
      modifies this
      ensures Valid()
      ensures State() == if innerWidth > 768 then Closed(old(State()), Present()) else old(State())
    {
      if innerWidth > 768 {
        CloseMobileMenu();
      }
    }
  }

  /**
   * `handleKeyboardNavigation`: Escape closes an open menu; Ctrl or Cmd
   * with "d" toggles the theme.
   */
  method HandleKeyboardNavigation(menu: MobileMenu, theme: Theme.ThemeSwitcher, key: string, ctrlOrMeta: bool)
    requires menu.Valid()
    modifies menu, theme`dataTheme, theme`storage, theme`iconClass
    ensures menu.Valid()
    ensures menu.State() == if key == "Escape" && old(menu.State().IsOpen())
                            then Closed(old(menu.State()), menu.Present()) else old(menu.State())
    ensures ctrlOrMeta && key == "d" ==> theme.InMode(Theme.ToggleTarget(old(theme.dataTheme)))
    ensures ctrlOrMeta && key == "d" ==>
              theme.storage == old(theme.storage)[Theme.ThemeKey := Theme.Name(Theme.ToggleTarget(old(theme.dataTheme)))]
    ensures ctrlOrMeta && key == "d" && !theme.hasIcon ==> theme.iconClass == old(theme.iconClass)
    ensures !(ctrlOrMeta && key == "d") ==> unchanged(theme)
  {
    if key == "Escape" && menu.hasNavMenu && Active in menu.navMenuClasses {
      menu.CloseMobileMenu();
    }
    if ctrlOrMeta && key == "d" {
      theme.ToggleDarkMode();
    }
  }

  // ---------------------------------------------------------------------
  // Navbar scroll effects
  // ---------------------------------------------------------------------

  /** The navbar gets its `scrolled` background past 50 pixels. */
  predicate IsScrolled(y: real)
  {
    y > 50.0
  }

  /** The navbar slides away while scrolling down past 100 pixels. */
  predicate HidesNavbar(y: real, lastY: real)
  {
    y > lastY && y > 100.0
  }

  /** A hidden navbar is always a scrolled one, and a repeated event at the same position shows it again. */
  lemma HiddenImpliesScrolled(y: real, lastY: real)
    ensures HidesNavbar(y, lastY) ==> IsScrolled(y)
    ensures !HidesNavbar(y, y)
  {
  }

  /** The closure of `initializeNavbarEffects`: the navbar's classes and transform, and `lastScrollY`. */
  class NavbarEffects {
    const hasNavbar: bool
    var navbarClasses: set<string>
    var transform: string
    var lastScrollY: real

    constructor (hasNavbar: bool, navbarClasses: set<string>, transform: string, scrollY: real)
      ensures this.hasNavbar == hasNavbar && this.navbarClasses == navbarClasses
      ensures this.transform == transform && lastScrollY == scrollY
    {
      this.hasNavbar := hasNavbar;
      this.navbarClasses := navbarClasses;
      this.transform := transform;
      lastScrollY := scrollY;
    }

    /**
     * The scroll listener. Without a navbar its first statement throws, so
     * the handler stops there and `lastScrollY` is never updated.
     */
    method OnScroll(y: real) returns (completed: bool)
      modifies this
      ensures completed == hasNavbar
      ensures !hasNavbar ==> unchanged(this)
      ensures hasNavbar ==>
                (Scrolled in navbarClasses <==> IsScrolled(y)) &&
                navbarClasses - {Scrolled} == old(navbarClasses) - {Scrolled} &&
                transform == (if HidesNavbar(y, old(lastScrollY)) then HiddenTransform else ShownTransform) &&
                lastScrollY == y
    {
      if !hasNavbar {
        return false;
      }
      if y > 50.0 {
        navbarClasses := navbarClasses + {Scrolled};
      } else {
        navbarClasses := navbarClasses - {Scrolled};
      }
      if y > lastScrollY && y > 100.0 {
        transform := HiddenTransform;
      } else {
        transform := ShownTransform;
      }
      lastScrollY := y;
      completed := true;
    }
  }
}
