/**
 * Dark-mode handling of the site script: the startup decision, the two
 * `enable...Mode` writers, the toggle and the icon, over the `data-theme`
 * attribute of the root element and the `theme` key of local storage.
 */
module Theme {
  import opened Wrappers

  datatype Mode = Dark | Light

  /** The attribute and storage value written for a mode. */
  function Name(m: Mode): string
  {
    if m == Dark then "dark" else "light"
  }

  const ThemeKey := "theme"
  const SunIcon := "fas fa-sun"
  const MoonIcon := "fas fa-moon"

  /** `localStorage.getItem(key)`. */
  function Get(storage: map<string, string>, key: string): (r: Option<string>)
    ensures r.Some? <==> key in storage
    ensures r.Some? ==> r.value == storage[key]
  {
    if key in storage then Some(storage[key]) else None
  }

  /**
   * The startup decision of `initializeDarkMode`: a saved "dark" wins, no
   * saved value defers to the system preference, and any other saved value
   * (including "light" and garbage) gives light.
   */
  function StartupMode(saved: Option<string>, systemPrefersDark: bool): (m: Mode)
    ensures saved == Some("dark") ==> m == Dark
    ensures !Falsy(saved) && saved != Some("dark") ==> m == Light
    ensures Falsy(saved) ==> (m == Dark <==> systemPrefersDark)
  {
    if saved == Some("dark") || (Falsy(saved) && systemPrefersDark) then Dark else Light
  }

  /** The mode `toggleDarkMode` switches to, given the current `data-theme` attribute. */
  function ToggleTarget(current: Option<string>): (m: Mode)
    ensures m == Light <==> current == Some("dark")
  {
    if current == Some("dark") then Light else Dark
  }

  /** The class `updateDarkModeIcon` gives the icon: a sun for "sun", a moon for anything else. */
  function IconClass(iconType: string): (c: string)
    ensures c == SunIcon <==> iconType == "sun"
    ensures c == SunIcon || c == MoonIcon
  {
    if iconType == "sun" then SunIcon else MoonIcon
  }

  /** Dark mode shows the sun (to switch to light), light mode the moon. */
  function IconType(m: Mode): string
  {
    if m == Dark then "sun" else "moon"
  }

  /** Toggling from a mode that was written by the script lands on the other mode, and twice on the start. */
  lemma ToggleAlternates(m: Mode)
    ensures ToggleTarget(Some(Name(m))) != m
    ensures ToggleTarget(Some(Name(ToggleTarget(Some(Name(m)))))) == m
  {
  }

  /**
   * The root element's attribute, local storage and the icon, as the
   * script's dark-mode functions update them. `hasIcon` says whether the
   * page has a `#dark-mode-icon` element.
   */
  class ThemeSwitcher {
    var dataTheme: Option<string>
    var storage: map<string, string>
    const hasIcon: bool
    var iconClass: string

    /** Attribute, stored value and icon agree on one mode. */
    ghost predicate InSync()
      reads this
    {
      exists m: Mode :: InMode(m)
    }

    ghost predicate InMode(m: Mode)
      reads this
    {
      dataTheme == Some(Name(m)) &&
      Get(storage, ThemeKey) == Some(Name(m)) &&
      (hasIcon ==> iconClass == IconClass(IconType(m)))
    }

    /** The page as loaded, before `initializeDarkMode` runs. */
    constructor (dataTheme: Option<string>, storage: map<string, string>, hasIcon: bool, iconClass: string)
      ensures this.dataTheme == dataTheme && this.storage == storage
      ensures this.hasIcon == hasIcon && this.iconClass == iconClass
    {
      this.dataTheme := dataTheme;
      this.storage := storage;
      this.hasIcon := hasIcon;
      this.iconClass := iconClass;
    }

    method UpdateDarkModeIcon(iconType: string)
      modifies this`iconClass
      ensures iconClass == if hasIcon then IconClass(iconType) else old(iconClass)
    {
      if hasIcon {
        iconClass := IconClass(iconType);
      }
    }

    /** `enableDarkMode`: attribute and stored value both become "dark", the icon a sun; other keys stay. */
    method EnableDarkMode()
      modifies this`dataTheme, this`storage, this`iconClass
      ensures InMode(Dark)
      ensures storage == old(storage)[ThemeKey := "dark"]
      ensures !hasIcon ==> iconClass == old(iconClass)
    {
      dataTheme := Some("dark");
      storage := storage[ThemeKey := "dark"];
      UpdateDarkModeIcon("sun");
    }

    /** `enableLightMode`: attribute and stored value both become "light", the icon a moon; other keys stay. */
    method EnableLightMode()
      modifies this`dataTheme, this`storage, this`iconClass
      ensures InMode(Light)
      ensures storage == old(storage)[ThemeKey := "light"]
      ensures !hasIcon ==> iconClass == old(iconClass)
    {
      dataTheme := Some("light");
      storage := storage[ThemeKey := "light"];
      UpdateDarkModeIcon("moon");
    }

    /** `toggleDarkMode`: light if the attribute says "dark", dark otherwise (also when it is missing). */
    method ToggleDarkMode()
      modifies this`dataTheme, this`storage, this`iconClass
      ensures InMode(ToggleTarget(old(dataTheme)))
      ensures storage == old(storage)[ThemeKey := Name(ToggleTarget(old(dataTheme)))]
      ensures !hasIcon ==> iconClass == old(iconClass)
    {
      if dataTheme == Some("dark") {
        EnableLightMode();
      } else {
        EnableDarkMode();
      }
    }

    /** `initializeDarkMode`, with the system's colour-scheme preference as a parameter. */
    method InitializeDarkMode(systemPrefersDark: bool)
      modifies this`dataTheme, this`storage, this`iconClass
      ensures InMode(StartupMode(Get(old(storage), ThemeKey), systemPrefersDark))
      ensures storage == old(storage)[ThemeKey := Name(StartupMode(Get(old(storage), ThemeKey), systemPrefersDark))]
      ensures !hasIcon ==> iconClass == old(iconClass)
      ensures InSync()
    {
      var saved := Get(storage, ThemeKey);
      if saved == Some("dark") || (Falsy(saved) && systemPrefersDark) {
        EnableDarkMode();
      } else {
        EnableLightMode();
      }
    }

    /**
     * The listener on the system colour scheme: it follows the system only
     * while no theme is saved. Once the attribute, storage and icon are in
     * sync (as `InitializeDarkMode` leaves them) a theme is always saved, so
     * the listener changes nothing.
     */
    method SystemSchemeChanged(matches: bool)
      modifies this`dataTheme, this`storage, this`iconClass
      ensures old(InSync()) ==> unchanged(this)
      ensures !Falsy(Get(old(storage), ThemeKey)) ==> unchanged(this)
      ensures Falsy(Get(old(storage), ThemeKey)) ==> InMode(if matches then Dark else Light)
      ensures Falsy(Get(old(storage), ThemeKey)) ==> storage == old(storage)[ThemeKey := Name(if matches then Dark else Light)]
      ensures !hasIcon ==> iconClass == old(iconClass)
    {
      if Falsy(Get(storage, ThemeKey)) {
        if matches {
          EnableDarkMode();
        } else {
          EnableLightMode();
        }
      }
    }
  }
}
