/** The colour theme (frontend/src/theme/ThemeProvider.jsx): the initial
    choice, the toggle, the effect that persists the theme and sets the root's
    classes, and the handler for an OS preference change. */
module Theme {
  import opened Wrappers
  import opened Ui
  import Browser

  const Light: string := "light"
  const Dark: string := "dark"

  /** The result of a browser call that may throw. */
  datatype Probe<T> = Throws | Gives(value: T)

  /** `getInitialTheme`. `hasWindow` is `typeof window !== 'undefined'`;
      `stored` is what `localStorage.getItem('theme')` gives; `prefersDark` is
      what the `prefers-color-scheme: dark` query reports. */
  function InitialTheme(hasWindow: bool, stored: Probe<Option<string>>, prefersDark: Probe<bool>): (r: string)
    ensures r == Light || r == Dark
    ensures !hasWindow || stored.Throws? ==> r == Light
    ensures hasWindow && stored == Gives(Some(Light)) ==> r == Light
    ensures hasWindow && stored == Gives(Some(Dark)) ==> r == Dark
    ensures hasWindow && stored.Gives? && stored.value != Some(Light) && stored.value != Some(Dark)
            ==> r == (if prefersDark == Gives(true) then Dark else Light)
  {
    if !hasWindow then Light
    else
      match stored
      case Throws => Light
      case Gives(s) =>
        if s == Some(Light) || s == Some(Dark) then s.value
        else
          match prefersDark
          case Throws => Light
          case Gives(dark) => if dark then Dark else Light
  }

  /** The `toggleTheme` updater: `dark` becomes `light`, anything else `dark`. */
  function Toggled(t: string): (r: string)
    ensures t == Dark ==> r == Light
    ensures t != Dark ==> r == Dark
  {
    if t == Dark then Light else Dark
  }

  /** Toggling twice gives back either theme. */
  lemma ToggleTwice(t: string)
    requires t == Light || t == Dark
    ensures Toggled(Toggled(t)) == t
  {
  }

  /** Toggling twice is not the identity on other values: they end as `light`. */
  lemma ToggleTwiceOther(t: string)
    requires t != Light && t != Dark
    ensures Toggled(Toggled(t)) == Light && Toggled(Toggled(t)) != t
  {
  }

  /** The provider's `theme` state and the two classes it keeps on `document.documentElement`. */
  class ThemeProvider {
    const store: Browser.LocalStorage
    var theme: string
    var rootDark: bool
    var rootLight: bool

    /** The storage and the root agree with `theme`, as the effect leaves them. */
    ghost predicate Synced()
      reads this, store
    {
      store.GetItem(Browser.ThemeKey) == Some(theme)
      && rootDark == (theme == Dark) && rootLight == (theme == Light)
    }

    /** `useState(getInitialTheme)` in a window, then the effect's first run.
        `rootDark` and `rootLight` are the classes the page starts with. */
    constructor (store: Browser.LocalStorage, prefersDark: Probe<bool>, rootDark: bool, rootLight: bool)
      modifies store
      ensures this.store == store
      ensures theme == InitialTheme(true, Gives(old(store.GetItem(Browser.ThemeKey))), prefersDark)
      ensures theme == Light || theme == Dark
      ensures store.items == old(store.items)[Browser.ThemeKey := theme]
      ensures Synced()
    {
      this.store := store;
      theme := InitialTheme(true, Gives(store.GetItem(Browser.ThemeKey)), prefersDark);
      this.rootDark := rootDark;
      this.rootLight := rootLight;
      new;
      ApplyEffect();
    }

    /** The `[theme]` effect: persist the theme and toggle the two root classes. */
    method ApplyEffect()
      modifies this`rootDark, this`rootLight, store
      ensures store.items == old(store.items)[Browser.ThemeKey := theme]
      ensures Synced()
    {
      store.SetItem(Browser.ThemeKey, theme);
      rootDark := theme == Dark;
      rootLight := theme == Light;
    }

    /** `setTheme(t)` followed by the effect it triggers; any string is taken. */
    method SetTheme(t: string)
      modifies this`theme, this`rootDark, this`rootLight, store
      ensures theme == t
      ensures store.items == old(store.items)[Browser.ThemeKey := t]
      ensures Synced()
    {
      theme := t;
      ApplyEffect();
    }

    /** `toggleTheme()` followed by the effect. */
    method ToggleTheme()
      modifies this`theme, this`rootDark, this`rootLight, store
      ensures theme == Toggled(old(theme))
      ensures store.items == old(store.items)[Browser.ThemeKey := theme]
      ensures Synced()
    {
      SetTheme(Toggled(theme));
    }

    /** The media query's `change` handler: the OS preference applies only
        while no (non-empty) theme is stored. Once the effect has stored a
        non-empty theme, this changes nothing. */
    method MediaChange(matches: bool)
      modifies this`theme, this`rootDark, this`rootLight, store
      ensures Truthy(old(store.GetItem(Browser.ThemeKey)))
              ==> theme == old(theme) && rootDark == old(rootDark) && rootLight == old(rootLight)
                  && store.items == old(store.items)
      ensures !Truthy(old(store.GetItem(Browser.ThemeKey)))
              ==> theme == (if matches then Dark else Light) && Synced()
                  && store.items == old(store.items)[Browser.ThemeKey := theme]
      ensures old(Synced()) && old(theme) != ""
              ==> theme == old(theme) && store.items == old(store.items)
    {
      var stored := store.GetItem(Browser.ThemeKey);
      if !Truthy(stored) {
        SetTheme(if matches then Dark else Light);
      }
    }
  }
}
