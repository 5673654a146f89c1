/** The pure part of `KnxFrontend._applyTheme` (src/main.ts): which theme name is
    handed to the theme engine, and which options record goes with it. The
    engine itself (`applyThemesOnElement`) is a foreign call; the component
    model records its arguments. */
module Theme {
  import opened Wrappers

  /** The fields of `hass.themes` that the derivation reads. The table of named
      themes is passed through to the engine untouched and is not modelled. */
  datatype Themes = Themes(darkMode: bool, defaultTheme: string, defaultDarkTheme: Option<string>)

  /** `hass.selectedTheme`: the user's explicit choice, with its optional fields. */
  datatype ThemeSettings = ThemeSettings(
    theme: string,
    dark: Option<bool>,
    primaryColor: Option<string>,
    accentColor: Option<string>)

  /** A `Partial<ThemeSettings>` record: every field may be absent. */
  datatype ThemeOptions = ThemeOptions(
    theme: Option<string>,
    dark: Option<bool>,
    primaryColor: Option<string>,
    accentColor: Option<string>)

  const NoOptions := ThemeOptions(None, None, None, None)

  /** JavaScript truthiness of an optional string: absent and "" are falsy. */
  predicate Truthy(s: Option<string>) {
    s.Some? && s.value != ""
  }

  /** `a || b` on an optional string and a string. */
  function OrElse(a: Option<string>, b: string): string {
    if Truthy(a) then a.value else b
  }

  /** `selectedTheme?.theme` */
  function SelectedName(selected: Option<ThemeSettings>): Option<string> {
    if selected.Some? then Some(selected.value.theme) else None
  }

  /** A settings record viewed as a partial one (no field is dropped). */
  function AsOptions(s: ThemeSettings): ThemeOptions {
    ThemeOptions(Some(s.theme), s.dark, s.primaryColor, s.accentColor)
  }

  /** `options = this.hass.selectedTheme`, where absent stays absent. */
  function Lift(selected: Option<ThemeSettings>): Option<ThemeOptions> {
    if selected.Some? then Some(AsOptions(selected.value)) else None
  }

  /** Object spread `{...o}`: spreading `undefined` or `null` yields `{}`. */
  function Spread(o: Option<ThemeOptions>): ThemeOptions {
    if o.Some? then o.value else NoOptions
  }

  /** The theme name (src/main.ts:124-128): the selected theme when its name is
      non-empty, else the dark default when dark mode is on and a dark default
      is set, else the plain default. */
  function ThemeName(themes: Themes, selected: Option<ThemeSettings>): (name: string)
    ensures selected.Some? && selected.value.theme != "" ==> name == selected.value.theme
    ensures (selected.None? || selected.value.theme == "") && themes.darkMode
              && themes.defaultDarkTheme.Some? && themes.defaultDarkTheme.value != ""
            ==> name == themes.defaultDarkTheme.value
    ensures (selected.None? || selected.value.theme == "")
              && !(themes.darkMode && Truthy(themes.defaultDarkTheme))
            ==> name == themes.defaultTheme
    ensures name == themes.defaultTheme || Truthy(Some(name))
  {
    OrElse(SelectedName(selected),
           if themes.darkMode && Truthy(themes.defaultDarkTheme) then themes.defaultDarkTheme.value
           else themes.defaultTheme)
  }

  /** The options before `dark` is forced (src/main.ts:130-135): the selected
      record itself, or, when the name is "default" and no `dark` was chosen,
      a fresh shallow copy of it. */
  function BaseOptions(name: string, selected: Option<ThemeSettings>): Option<ThemeOptions> {
    var options := Lift(selected);
    if name == "default" && (options.None? || options.value.dark.None?) then Some(Spread(Lift(selected)))
    else options
  }

  /** The options record handed to the engine (src/main.ts:137-140): the
      selected theme's fields with `dark` overridden by `themes.darkMode`; with
      nothing selected, only `dark`. */
  function EngineOptions(themes: Themes, selected: Option<ThemeSettings>): (r: ThemeOptions)
    ensures r.dark == Some(themes.darkMode)
    ensures selected.None? ==> r == ThemeOptions(None, Some(themes.darkMode), None, None)
    ensures selected.Some? ==> r == AsOptions(selected.value).(dark := Some(themes.darkMode))
  {
    CopyBranchKeepsContent(ThemeName(themes, selected), selected);
    Spread(BaseOptions(ThemeName(themes, selected), selected)).(dark := Some(themes.darkMode))
  }

  /** The copy made for the "default" theme holds the same fields as the record
      it copies, so that branch never changes what reaches the engine. */
  lemma CopyBranchKeepsContent(name: string, selected: Option<ThemeSettings>)
    ensures Spread(BaseOptions(name, selected)) == Spread(Lift(selected))
  {
  }

  /** The name is always one of the three candidates the derivation chooses
      from. */
  lemma ThemeNameIsACandidate(themes: Themes, selected: Option<ThemeSettings>)
    ensures var name := ThemeName(themes, selected);
            SelectedName(selected) == Some(name) || name == themes.defaultTheme
            || themes.defaultDarkTheme == Some(name)
  {
  }

  /** The dark default is picked only in dark mode, and the derivation never
      overrides a non-empty explicit choice. */
  lemma DarkDefaultOnlyInDarkMode(themes: Themes, selected: Option<ThemeSettings>)
    requires Truthy(themes.defaultDarkTheme) && themes.defaultDarkTheme.value != themes.defaultTheme
    requires !Truthy(SelectedName(selected)) || selected.value.theme != themes.defaultDarkTheme.value
    ensures ThemeName(themes, selected) == themes.defaultDarkTheme.value <==> themes.darkMode && !Truthy(SelectedName(selected))
  {
  }
}
