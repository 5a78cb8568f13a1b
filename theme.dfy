/**
 * The pure decisions of the theme engine in Js/main.js: which theme start-up
 * resolves to, how a theme is written into the class list of `<html>`, and
 * which icon and label a theme-toggle button shows.
 */
module Theme {
  import opened Wrappers

  const Dark := "dark"
  const Light := "light"

  // ---------------------------------------------------------------------
  // Theme resolution at start-up
  // ---------------------------------------------------------------------

  /** A saved preference is taken only when it is truthy: present and non-empty. */
  predicate IsTruthy(saved: Option<string>) {
    saved.Some? && saved.value != ""
  }

  /** The night window of the automatic theme, [19:00, 06:00). */
  predicate IsNightHour(hour: int) {
    hour >= 19 || hour < 6
  }

  /** Whether start-up shows the dark theme, given the saved preference and the hour. */
  function ResolveIsDark(saved: Option<string>, hour: int): (isDark: bool)
    ensures IsTruthy(saved) ==> (isDark <==> saved.value == Dark)
    ensures !IsTruthy(saved) ==> (isDark <==> IsNightHour(hour))
    ensures !IsTruthy(saved) && 0 <= hour <= 23 ==> (isDark <==> !(6 <= hour <= 18))
  {
    if IsTruthy(saved) then saved.value == Dark else IsNightHour(hour)
  }

  /** The string the toggle handler stores for a theme. */
  function PreferenceFor(isDark: bool): (s: string) {
    if isDark then Dark else Light
  }

  /** Within a day, the night window is exactly the hours outside 6..18. */
  lemma NightWindow(hour: int)
    requires 0 <= hour <= 23
    ensures IsNightHour(hour) <==> !(6 <= hour <= 18)
    ensures IsNightHour(19) && IsNightHour(5) && !IsNightHour(6) && !IsNightHour(18)
  {
  }

  /** A truthy saved preference decides the theme whatever the hour. */
  lemma OverrideWins(saved: Option<string>, hour1: int, hour2: int)
    requires IsTruthy(saved)
    ensures ResolveIsDark(saved, hour1) == ResolveIsDark(saved, hour2)
  {
  }

  /** What the toggle handler stores makes the next start-up show the same theme, at any hour. */
  lemma StoredToggleWinsNextLoad(isDark: bool, hour: int)
    ensures IsTruthy(Some(PreferenceFor(isDark)))
    ensures ResolveIsDark(Some(PreferenceFor(isDark)), hour) == isDark
  {
  }

  /** Start-up examples: no preference at 20 and at 12, `'light'` at 23, an empty and a mis-cased preference. */
  lemma StartupScenarios()
    ensures ResolveIsDark(None, 20) && !ResolveIsDark(None, 12)
    ensures !ResolveIsDark(Some(Light), 23)
    ensures ResolveIsDark(Some(""), 2) && !ResolveIsDark(Some(""), 9)
    ensures !ResolveIsDark(Some("Dark"), 22)
  {
  }

  // ---------------------------------------------------------------------
  // The class list of <html>
  // ---------------------------------------------------------------------

  /** The class list shows the given theme: exactly one of `dark`, `light`, the matching one. */
  predicate ClassesShow(classes: set<string>, isDark: bool) {
    (Dark in classes <==> isDark) && (Light in classes <==> !isDark)
  }

  /** The class list after `applyTheme(isDark)`. */
  function ApplyThemeClasses(classes: set<string>, isDark: bool): (r: set<string>)
    ensures ClassesShow(r, isDark)
    ensures r - {Dark, Light} == classes - {Dark, Light}
  {
    if isDark then classes + {Dark} - {Light} else classes + {Light} - {Dark}
  }

  /** Applying a theme overrides whatever theme was applied before; in particular applying is idempotent. */
  lemma ApplyThemeLastWins(classes: set<string>, first: bool, second: bool)
    ensures ApplyThemeClasses(ApplyThemeClasses(classes, first), second) == ApplyThemeClasses(classes, second)
    ensures ApplyThemeClasses(ApplyThemeClasses(classes, second), second) == ApplyThemeClasses(classes, second)
  {
  }

  /** A class list that already shows a theme is left as it is by applying that theme. */
  lemma ApplyShownThemeIsNoop(classes: set<string>, isDark: bool)
    requires ClassesShow(classes, isDark)
    ensures ApplyThemeClasses(classes, isDark) == classes
  {
  }

  /** The class list after a click on a theme toggle: the theme opposite to "`dark` is present". */
  function ToggledClasses(classes: set<string>): (r: set<string>)
    ensures Dark in r <==> Dark !in classes
    ensures ClassesShow(r, Dark !in classes)
    ensures r - {Dark, Light} == classes - {Dark, Light}
  {
    ApplyThemeClasses(classes, Dark !in classes)
  }

  /**
   * Two clicks restore whether `dark` is present; when the class list showed
   * a theme to begin with, they restore the class list itself.
   */
  lemma ToggleTwice(classes: set<string>)
    ensures Dark in ToggledClasses(ToggledClasses(classes)) <==> Dark in classes
    ensures (ClassesShow(classes, true) || ClassesShow(classes, false)) ==>
              ToggledClasses(ToggledClasses(classes)) == classes
  {
  }

  // ---------------------------------------------------------------------
  // Theme-toggle buttons
  // ---------------------------------------------------------------------

  /**
   * A theme-toggle button: its element id, the text of its `.material-icons`
   * child (`None` when it has none) and its aria-label.
   */
  datatype ToggleButton = ToggleButton(id: string, icon: Option<string>, ariaLabel: string)

  /** The icon a toggle shows: the theme a click switches to. */
  function IconText(isDark: bool): (s: string) {
    if isDark then "light_mode" else "dark_mode"
  }

  /** The accessible label a toggle carries. */
  function AriaLabel(isDark: bool): (s: string) {
    if isDark then "Switch to Light Mode" else "Switch to Dark Mode"
  }

  /** A button (or a missing one) shows the given theme. */
  predicate ButtonShows(btn: Option<ToggleButton>, isDark: bool) {
    btn.Some? ==>
      (btn.value.ariaLabel == "Switch to Light Mode" <==> isDark) &&
      (btn.value.ariaLabel == "Switch to Dark Mode" <==> !isDark) &&
      (btn.value.icon.Some? ==>
        (btn.value.icon.value == "light_mode" <==> isDark) &&
        (btn.value.icon.value == "dark_mode" <==> !isDark))
  }

  /** One button after `updateIcons(isDark)`: a missing button and a missing icon are skipped. */
  function Relabel(btn: Option<ToggleButton>, isDark: bool): (r: Option<ToggleButton>)
    ensures r.None? <==> btn.None?
    ensures btn.Some? ==> r.value.id == btn.value.id && (r.value.icon.Some? <==> btn.value.icon.Some?)
    ensures ButtonShows(r, isDark)
  {
    match btn
    case None => None
    case Some(b) =>
      var icon := if b.icon.Some? then Some(IconText(isDark)) else None;
      Some(b.(icon := icon, ariaLabel := AriaLabel(isDark)))
  }

  /** Every button after `updateIcons(isDark)`. */
  function RelabelAll(buttons: seq<Option<ToggleButton>>, isDark: bool): (r: seq<Option<ToggleButton>>)
    ensures |r| == |buttons|
    ensures forall i :: 0 <= i < |r| ==> r[i] == Relabel(buttons[i], isDark)
  {
    if buttons == [] then [] else [Relabel(buttons[0], isDark)] + RelabelAll(buttons[1..], isDark)
  }

  /** Relabelling for one theme and then another is relabelling for the second; so it is idempotent. */
  lemma RelabelAllLastWins(buttons: seq<Option<ToggleButton>>, first: bool, second: bool)
    ensures RelabelAll(RelabelAll(buttons, first), second) == RelabelAll(buttons, second)
  {
  }
}
