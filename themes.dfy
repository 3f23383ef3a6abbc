/** The application's colour themes (lib/themes.ts): a fixed table and a lookup that falls back to `light`. */
module Themes {

  datatype ThemeColors = ThemeColors(
    background: string, foreground: string, primary: string, primaryHover: string,
    secondary: string, accent: string, border: string, cardBg: string,
    inputBg: string, muted: string)

  datatype Theme = Theme(id: string, name: string, colors: ThemeColors)

  const Light: Theme := Theme("light", "Light",
    ThemeColors("#ffffff", "#000000", "#003366", "#002244", "#f3f4f6", "#60a5fa", "#e5e7eb", "#ffffff", "#ffffff", "#6b7280"))
  const Dark: Theme := Theme("dark", "Dark",
    ThemeColors("#1a1a1a", "#ffffff", "#60a5fa", "#3b82f6", "#2d2d2d", "#93c5fd", "#404040", "#262626", "#2d2d2d", "#9ca3af"))
  const Nature: Theme := Theme("nature", "Nature Green",
    ThemeColors("#f0fdf4", "#14532d", "#059669", "#047857", "#dcfce7", "#10b981", "#bbf7d0", "#ffffff", "#ffffff", "#6b7280"))
  const Sunset: Theme := Theme("sunset", "Sunset Orange",
    ThemeColors("#fff7ed", "#7c2d12", "#ea580c", "#c2410c", "#ffedd5", "#f97316", "#fed7aa", "#ffffff", "#ffffff", "#6b7280"))
  const Royal: Theme := Theme("royal", "Royal Purple",
    ThemeColors("#faf5ff", "#581c87", "#7c3aed", "#6d28d9", "#f3e8ff", "#a78bfa", "#e9d5ff", "#ffffff", "#ffffff", "#6b7280"))
  const Ocean: Theme := Theme("ocean", "Ocean Blue",
    ThemeColors("#f0f9ff", "#0c4a6e", "#0284c7", "#0369a1", "#e0f2fe", "#38bdf8", "#bae6fd", "#ffffff", "#ffffff", "#6b7280"))

  /** `APP_THEMES`: six themes, each filed under its own id. */
  function AppThemes(): (m: map<string, Theme>)
    ensures |m.Keys| == 6 && "light" in m && m["light"] == Light
    ensures forall id :: id in m ==> m[id].id == id
  {
    var m := map["light" := Light, "dark" := Dark, "nature" := Nature,
                 "sunset" := Sunset, "royal" := Royal, "ocean" := Ocean];
    assert m.Keys == {"light", "dark", "nature", "sunset", "royal", "ocean"};
    m
  }

  /** `getTheme`: the table entry for a known id, the light theme otherwise. */
  function GetTheme(themeId: string): (t: Theme)
    ensures t in AppThemes().Values
    ensures themeId in AppThemes() ==> t == AppThemes()[themeId]
    ensures themeId !in AppThemes() ==> t == Light
    ensures t.id == themeId <==> themeId in AppThemes()
  {
    if themeId in AppThemes() then AppThemes()[themeId] else Light
  }

  /** The theme returned is a table member, so looking it up again by its id gives it back. */
  lemma GetThemeIdempotent(themeId: string)
    ensures GetTheme(GetTheme(themeId).id) == GetTheme(themeId)
  {
    var t := GetTheme(themeId);
    assert t.id in AppThemes() && AppThemes()[t.id] == t by {
      if themeId !in AppThemes() {
        assert t == AppThemes()["light"];
      }
    }
  }
}
