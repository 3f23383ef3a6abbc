/**
 * The theme provider (contexts/ThemeContext.tsx): two state cells, the
 * selected id and the palette in use, restored from storage on mount and
 * overwritten by `setTheme`.
 */
module ThemeContext {
  import opened Wrappers
  import opened Themes
  import opened Storage

  const ThemeKey: string := "cga_app_theme"

  class ThemeProvider {
    var themeId: string
    var theme: Theme

    /** The palette in use is always one of the table's themes. */
    ghost predicate Valid()
      reads this
    {
      theme in AppThemes().Values
    }

    /** Initial state: the light theme. */
    constructor ()
      ensures Valid()
      ensures themeId == "light" && theme == Light
    {
      themeId := "light";
      theme := Light;
    }

    /** Mount effect: a saved id is adopted only when it names a table entry. */
    method RestoreOnMount(store: LocalStorage)
      requires Valid()
      modifies this
      ensures Valid()
      ensures var saved := store.GetItem(ThemeKey);
        if saved.Some? && saved.value.Text? && saved.value.s != "" && saved.value.s in AppThemes()
        then themeId == saved.value.s && theme == AppThemes()[saved.value.s]
        else themeId == old(themeId) && theme == old(theme)
    {
      var saved := store.GetItem(ThemeKey);
      if saved.Some? && saved.value.Text? && saved.value.s != "" && saved.value.s in AppThemes() {
        themeId := saved.value.s;
        theme := AppThemes()[saved.value.s];
      }
    }

    /**
     * `setTheme`: the id is kept as given while the palette goes through
     * `getTheme`, so an unknown id leaves the two cells disagreeing; the raw
     * id is saved either way.
     */
    method SetTheme(newThemeId: string, store: LocalStorage)
      requires Valid()
      modifies this, store
      ensures Valid()
      ensures themeId == newThemeId && theme == GetTheme(newThemeId)
      ensures newThemeId !in AppThemes() ==> theme == Light && themeId != theme.id
      ensures store.items == old(store.items)[ThemeKey := Text(newThemeId)]
    {
      var newTheme := GetTheme(newThemeId);
      themeId := newThemeId;
      theme := newTheme;
      store.SetItem(ThemeKey, Text(newThemeId));
    }
  }

  /**
   * An unknown id saved by `setTheme` is ignored by the next mount: the
   * first provider shows the light palette under the unknown id, and the
   * next one starts, and stays, on the light theme.
   */
  method UnknownIdNotRestored(badId: string) returns (first: ThemeProvider, next: ThemeProvider)
    requires badId !in AppThemes()
    ensures first.themeId == badId && first.theme == Light
    ensures next.themeId == "light" && next.theme == Light
  {
    var store := new LocalStorage();
    first := new ThemeProvider();
    first.SetTheme(badId, store);
    next := new ThemeProvider();
    next.RestoreOnMount(store);
  }
}
