/** The colour theme the application applies once authentication has
    settled. */
module Theme {
  import opened Types

  datatype Theme = Dark | Light

  /** `preferences?.themeMode ?? (preferences?.darkMode ? 'dark' : 'light')`.
      `themeMode` is not a declared preference; `storedThemeMode` is that key
      of the stored document, if it has one. */
  function ThemeMode(preferences: Option<PartialPreferences>, storedThemeMode: Option<string>): (m: string)
    ensures preferences.Some? && storedThemeMode.Some? ==> m == storedThemeMode.value
    ensures preferences.None? || storedThemeMode.None? ==>
              m == (if preferences.Some? && preferences.value.darkMode == Some(true) then "dark" else "light")
  {
    if preferences.Some? && storedThemeMode.Some? then storedThemeMode.value
    else if preferences.Some? && preferences.value.darkMode == Some(true) then "dark"
    else "light"
  }

  /** The second effect of `App`: nothing until the store is initialised;
      "system" follows the operating system, otherwise dark iff the mode is
      "dark". */
  function ResolveTheme(isInitialized: bool, preferences: Option<PartialPreferences>,
                        storedThemeMode: Option<string>, osPrefersDark: bool): (r: Option<Theme>)
    ensures r.Some? <==> isInitialized
    ensures isInitialized && ThemeMode(preferences, storedThemeMode) == "system" ==>
              r == Some(if osPrefersDark then Dark else Light)
    ensures isInitialized && ThemeMode(preferences, storedThemeMode) != "system" ==>
              (r == Some(Dark) <==> ThemeMode(preferences, storedThemeMode) == "dark")
  {
    if !isInitialized then None
    else
      var mode := ThemeMode(preferences, storedThemeMode);
      if mode == "system" then Some(if osPrefersDark then Dark else Light)
      else Some(if mode == "dark" then Dark else Light)
  }

  /** Without a stored mode the theme is dark exactly when the darkMode
      preference is true: absent preferences or an absent key give light. */
  lemma DarkModeDecides(preferences: Option<PartialPreferences>, osPrefersDark: bool)
    ensures ResolveTheme(true, preferences, None, osPrefersDark) == Some(Dark)
        <==> preferences.Some? && preferences.value.darkMode == Some(true)
  {
  }
}
