# Kongu-Hub page script: a verified model of the theme engine

This project models the client-side behaviour in `Js/main.js` of the Kongu-Hub
static site. It covers the "smart theme engine", which resolves light or dark
at start-up from a saved preference or from the hour of the day. It covers
applying a theme to the `<html>` class list and to the toggle buttons, and the
manual theme toggle that saves the user's choice. It also covers two class
rules: the mobile-menu toggle and the navbar's compact style on scroll.

The browser objects are abstracted:

- A class list (`<html>`, the mobile menu, the navbar) is a `set<string>`.
- The saved preference `localStorage.getItem('theme')` is an `Option<string>`.
- The theme-toggle buttons are a sequence of `Option<ToggleButton>` records.
  `None` stands for an element that was not found. A record holds the element
  id, the text of its `.material-icons` child (`None` when there is none) and
  its `aria-label`.

Modules:

- `Wrappers` (`wrappers.dfy`): the `Option` type.
- `Theme` (`theme.dfy`): the pure theme decisions. These are the resolution
  rule, the class-list update of `applyTheme`, the toggle's class-list update,
  and the icon and label of a toggle button. It also holds the lemmas about them.
- `NavRules` (`nav_rules.dfy`): the class rules for the mobile menu and the
  navbar, with their lemmas.
- `Site` (`site.dfy`): class `Page`, which holds the mutable page state. Its
  methods are the script's functions and event handlers. Each one changes only
  the fields named in its `modifies` clause. Each one is proved against the
  pure functions above.

The code does not treat the saved preference as a tri-state value (unset,
light or dark), and the model follows the code:

- Any truthy string is taken as a preference. It means dark exactly when it
  equals `'dark'`, so `'Dark'` or `'blue'` mean light.
- An empty string is falsy, so it is treated like an absent preference and the
  hour decides.

## Model

| member | source | states |
|---|---|---|
| `Theme.ResolveIsDark` | Js/main.js:56-72 | A truthy saved preference decides the theme: dark exactly when it is `'dark'`. Otherwise, including for an empty string, the theme is dark exactly when the hour is in the night window. |
| `Theme.NightWindow` | Js/main.js:66-70 | For an hour in 0..23, night means outside 6..18. 19 and 5 are night; 6 and 18 are day. |
| `Theme.OverrideWins` | Js/main.js:58-62 | With a truthy saved preference, the resolved theme is the same at every hour. |
| `Theme.StoredToggleWinsNextLoad` | Js/main.js:84-88 | The value the toggle stores is truthy, and on the next start-up it resolves to the theme that was saved, at any hour. |
| `Theme.StartupScenarios` | Js/main.js:56-72 | Concrete cases: no preference at 20 gives dark and at 12 gives light. `'light'` at 23 gives light. An empty preference follows the hour. `'Dark'` gives light. |
| `Theme.ApplyThemeClasses` | Js/main.js:45-51 | After applying a theme, the class list has `dark` and not `light` exactly when dark was applied, and `light` and not `dark` otherwise. Every other class is unchanged. |
| `Theme.ApplyThemeLastWins` | Js/main.js:40-54 | Applying one theme after another gives the same classes as applying only the second. Applying the same theme twice equals applying it once. |
| `Theme.ApplyShownThemeIsNoop` | Js/main.js:45-51 | Applying the theme that the class list already shows leaves the class list unchanged. |
| `Theme.ToggledClasses` | Js/main.js:84-85 | A toggle click makes `dark` present exactly when it was absent, shows exactly one theme, and keeps every other class. |
| `Theme.ToggleTwice` | Js/main.js:84-88 | After two toggles, `dark` is present exactly when it was before. If the class list showed a theme beforehand, it is restored exactly. |
| `Theme.Relabel` | Js/main.js:30-36 | A missing button stays missing, and a button without an icon gains none. The id is kept. The label is `'Switch to Light Mode'` exactly when dark and `'Switch to Dark Mode'` otherwise. The icon, when present, is `'light_mode'` exactly when dark and `'dark_mode'` otherwise. |
| `Theme.RelabelAll` | Js/main.js:28-38 | `updateIcons` keeps the number of buttons and relabels each button at its own position. |
| `Theme.RelabelAllLastWins` | Js/main.js:28-38 | Relabelling for one theme and then another equals relabelling for the second. So updating the icons is idempotent. |
| `NavRules.MenuToggled` | Js/main.js:107 | `hidden` is present exactly when it was absent. Every other class of the menu is unchanged. |
| `NavRules.MenuToggleInvolution` | Js/main.js:107 | Two menu toggles restore the menu's class list. |
| `NavRules.NavbarStyled` | Js/main.js:114-124 | Above a scroll offset of 20, the navbar has `shadow-md` and `py-2` and lacks `py-3`. At 20 or below, it lacks `shadow-md` and `py-2` and has `py-3`. Every other navbar class is unchanged. |
| `NavRules.NavbarSameSide` | Js/main.js:114-124 | Two offsets on the same side of the threshold style the navbar the same way. Repeated scroll events on one side change nothing further. |
| `Site.Page.constructor` | Js/main.js:2-3 | The page starts with the class lists, saved preference, buttons and menu icon it is given. |
| `Site.Page.UpdateIcons` | Js/main.js:28-38 | The loop over the buttons leaves them as `RelabelAll` of the old buttons. So every button shows the given theme. Only the buttons change. |
| `Site.Page.ApplyTheme` | Js/main.js:40-54 | `<html>` gets the classes of `ApplyThemeClasses`, and the buttons are relabelled. The whole page shows the theme. The saved preference, the menu and the navbar are unchanged. |
| `Site.Page.InitTheme` | Js/main.js:56-73 | At start-up the page applies `ResolveIsDark(saved, hour)` and then shows that theme. A truthy saved preference agrees with the displayed theme. The preference itself is not written. |
| `Site.Page.ToggleTheme` | Js/main.js:79-95 | A click applies the opposite of "`dark` is present" and stores `'dark'` or `'light'` to match. Afterwards the preference is `'dark'` exactly when `dark` is displayed. |
| `Site.Page.ToggleMenu` | Js/main.js:106-110 | The menu's classes become `MenuToggled` of the old ones. The icon is `'menu'` exactly when `hidden` is present and `'close'` exactly when it is absent. |
| `Site.Page.OnScroll` | Js/main.js:114-124 | The navbar's classes become `NavbarStyled` of the old ones at that scroll offset. Nothing else changes. |
| `Site.ClickThemeToggleTwice` | Js/main.js:81-93 | After two toggle clicks, the `<html>` classes are those of applying the original theme once: `dark` is present exactly when it was, and every class other than `dark`/`light` is kept. The page shows its original theme and the preference names that theme. The buttons are relabelled for that theme, keeping their ids and icon presence. The class list is restored when it showed a theme. The menu and navbar are untouched. |
| `Site.ApplyThemeTwice` | Js/main.js:40-54 | Applying the same theme twice leaves the `<html>` classes, icon texts and labels as one application does. Nothing else on the page changes. |

## Left out

- `getISTHours` (Js/main.js:18-26) reads the clock, the host timezone offset and a floating-point IST offset. The hour is a parameter of `InitTheme`, limited to 0..23, the range of `Date.getHours`.
- `disableTransitions` and the `enableTransition` flag of `applyTheme` (Js/main.js:6-16, 41-43) inject a temporary `<style>` element that a timer removes. This has no effect on the theme state.
- `localStorage` as a real store is not modelled. Its unavailability and its exceptions are host behaviour; the preference is one `Option<string>` field.
- The `console.log` calls and `getComputedStyle` (Js/main.js:63, 71, 90-92, 98-100) are debug output only.
- `e.preventDefault()` (Js/main.js:82) only stops the browser's default link action.
- The IntersectionObserver reveal (Js/main.js:127-137) is driven by browser layout and observer callbacks. On intersection it adds `animate-fade-in-up`, removes `opacity-0` and stops observing the element.
- DOM lookups and listener registration (Js/main.js:2-3, 79-80, 103-104, 106, 113, 114) are not modelled as lookups. Their results are the arguments of `Site.Page.constructor`; a missing toggle button is `None`.
- The navbar and the mobile menu with its button are assumed present. A missing `navbar` makes every scroll event throw: at Js/main.js:116 above 20, at Js/main.js:120 otherwise. A missing `mobileMenu` makes every menu click throw at Js/main.js:107, before the icon is touched. A missing `menuBtn` throws at Js/main.js:106 during load, so the scroll listener at Js/main.js:114 is never registered. Neither error path is modelled.
- A class list's order is not modelled, because a set replaces a DOM token list. `className` is not modelled either.
- Two toggle entries that are the same element, or that share one icon, are not modelled. The buttons are independent records, so object identity and aliasing are not captured.
- `Site.Page.ToggleMenu`: the menu button and its icon are assumed present. The source would throw on a missing icon, and that error path is not modelled.
- `Site.Page.OnScroll`: `scrollY` is a `real`. Floating-point rounding, infinities and NaN are not modelled.
