/**
 * The page state that the handlers of Js/main.js change: the class list of
 * `<html>`, the saved theme preference, the theme-toggle buttons, the mobile
 * menu and its button's icon, and the navbar's class list.
 */
module Site {
  import opened Wrappers
  import opened Theme
  import opened NavRules

  class Page {
    /** `document.documentElement.classList` */
    var htmlClasses: set<string>
    /** `localStorage.getItem('theme')` */
    var saved: Option<string>
    /** The two theme toggles (desktop and mobile); a missing element is `None`. */
    var buttons: seq<Option<ToggleButton>>
    /** The mobile menu's class list and the text of its button's icon. */
    var menuClasses: set<string>
    var menuIcon: string
    /** The navbar's class list. */
    var navbarClasses: set<string>

    /** The page displays the given theme, on `<html>` and on every toggle. */
    predicate ShowsTheme(isDark: bool)
      reads this
    {
      ClassesShow(htmlClasses, isDark) && forall i :: 0 <= i < |buttons| ==> ButtonShows(buttons[i], isDark)
    }

    /** A truthy saved preference agrees with the displayed theme. */
    predicate SavedAgrees()
      reads this
    {
      IsTruthy(saved) ==> (saved.value == Dark <==> Dark in htmlClasses)
    }

    /** The page as the markup and the browser hand it to the script. */
    constructor (htmlClasses: set<string>, saved: Option<string>, buttons: seq<Option<ToggleButton>>,
                 menuClasses: set<string>, menuIcon: string, navbarClasses: set<string>)
      ensures this.htmlClasses == htmlClasses && this.saved == saved && this.buttons == buttons
      ensures this.menuClasses == menuClasses && this.menuIcon == menuIcon && this.navbarClasses == navbarClasses
    {
      this.htmlClasses := htmlClasses;
      this.saved := saved;
      this.buttons := buttons;
      this.menuClasses := menuClasses;
      this.menuIcon := menuIcon;
      this.navbarClasses := navbarClasses;
    }

    /** `updateIcons(isDark)`: set the icon text and the aria-label of every present toggle. */
    method UpdateIcons(isDark: bool)
      modifies this`buttons
      ensures buttons == RelabelAll(old(buttons), isDark)
      ensures forall i :: 0 <= i < |buttons| ==> ButtonShows(buttons[i], isDark)
    {
      var i := 0;
      while i < |buttons|
        invariant 0 <= i <= |buttons| == |old(buttons)|
        invariant forall k :: 0 <= k < i ==> buttons[k] == Relabel(old(buttons)[k], isDark)
        invariant forall k :: i <= k < |buttons| ==> buttons[k] == old(buttons)[k]
      {
        if buttons[i].Some? {
          var btn := buttons[i].value;
          if btn.icon.Some? {
            btn := btn.(icon := Some(IconText(isDark)));
          }
          btn := btn.(ariaLabel := AriaLabel(isDark));
          buttons := buttons[i := Some(btn)];
        }
        i := i + 1;
      }
    }

    /** `applyTheme(isDark)`: add one theme class, remove the other, update the toggles. */
    method ApplyTheme(isDark: bool)
      modifies this`htmlClasses, this`buttons
      ensures htmlClasses == ApplyThemeClasses(old(htmlClasses), isDark)
      ensures buttons == RelabelAll(old(buttons), isDark)
      ensures ShowsTheme(isDark)
    {
      if isDark {
        htmlClasses := htmlClasses + {Dark};
        htmlClasses := htmlClasses - {Light};
      } else {
        htmlClasses := htmlClasses + {Light};
        htmlClasses := htmlClasses - {Dark};
      }
      UpdateIcons(isDark);
    }

    /** `initTheme()` at the given hour of the day. */
    method InitTheme(hour: int)
      requires 0 <= hour <= 23
      modifies this`htmlClasses, this`buttons
      ensures htmlClasses == ApplyThemeClasses(old(htmlClasses), ResolveIsDark(saved, hour))
      ensures buttons == RelabelAll(old(buttons), ResolveIsDark(saved, hour))
      ensures ShowsTheme(ResolveIsDark(saved, hour))
      ensures SavedAgrees()
    {
      if saved.Some? && saved.value != "" {
        var isDark := saved.value == Dark;
        ApplyTheme(isDark);
      } else {
        var isNightTime := hour >= 19 || hour < 6;
        ApplyTheme(isNightTime);
      }
    }

    /** A click on a theme toggle: switch to the other theme and save it. */
    method ToggleTheme()
      modifies this`htmlClasses, this`buttons, this`saved
      ensures htmlClasses == ToggledClasses(old(htmlClasses))
      ensures buttons == RelabelAll(old(buttons), Dark !in old(htmlClasses))
      ensures saved == Some(PreferenceFor(Dark !in old(htmlClasses)))
      ensures ShowsTheme(Dark !in old(htmlClasses))
      ensures saved == Some(Dark) <==> Dark in htmlClasses
      ensures SavedAgrees()
    {
      var isDark := Dark !in htmlClasses;
      ApplyTheme(isDark);
      saved := Some(if isDark then Dark else Light);
    }

    /** A click on the mobile-menu button: toggle `hidden` and set the icon to match. */
    method ToggleMenu()
      modifies this`menuClasses, this`menuIcon
      ensures menuClasses == MenuToggled(old(menuClasses))
      ensures menuIcon == "menu" <==> Hidden in menuClasses
      ensures menuIcon == "close" <==> Hidden !in menuClasses
    {
      if Hidden in menuClasses {
        menuClasses := menuClasses - {Hidden};
      } else {
        menuClasses := menuClasses + {Hidden};
      }
      menuIcon := MenuIconFor(Hidden in menuClasses);
    }

    /** The scroll handler at vertical offset `scrollY`. */
    method OnScroll(scrollY: real)
      modifies this`navbarClasses
      ensures navbarClasses == NavbarStyled(old(navbarClasses), scrollY)
    {
      if scrollY > ScrollThreshold {
        navbarClasses := navbarClasses + {ShadowMd};
        navbarClasses := navbarClasses + {PyTwo};
        navbarClasses := navbarClasses - {PyThree};
      } else {
        navbarClasses := navbarClasses - {ShadowMd};
        navbarClasses := navbarClasses + {PyThree};
        navbarClasses := navbarClasses - {PyTwo};
      }
    }
  }

  /**
   * Two clicks on a theme toggle: the page shows its original theme again
   * and the saved preference names it.
   */
  method ClickThemeToggleTwice(p: Page)
    modifies p
    ensures p.htmlClasses == ApplyThemeClasses(old(p.htmlClasses), Dark in old(p.htmlClasses))
    ensures Dark in p.htmlClasses <==> Dark in old(p.htmlClasses)
    ensures p.buttons == RelabelAll(old(p.buttons), Dark in old(p.htmlClasses))
    ensures p.saved == Some(PreferenceFor(Dark in old(p.htmlClasses)))
    ensures p.ShowsTheme(Dark in old(p.htmlClasses))
    ensures (ClassesShow(old(p.htmlClasses), true) || ClassesShow(old(p.htmlClasses), false)) ==>
              p.htmlClasses == old(p.htmlClasses)
    ensures p.menuClasses == old(p.menuClasses) && p.menuIcon == old(p.menuIcon)
    ensures p.navbarClasses == old(p.navbarClasses)
  {
    p.ToggleTheme();
    p.ToggleTheme();
    Theme.ToggleTwice(old(p.htmlClasses));
    ApplyThemeLastWins(old(p.htmlClasses), Dark !in old(p.htmlClasses), Dark in old(p.htmlClasses));
    RelabelAllLastWins(old(p.buttons), Dark !in old(p.htmlClasses), Dark in old(p.htmlClasses));
  }

  /**
   * `applyTheme(isDark)` twice leaves the page as one application does: the
   * same `<html>` classes, icon texts and labels.
   */
  method ApplyThemeTwice(p: Page, isDark: bool)
    modifies p
    ensures p.htmlClasses == ApplyThemeClasses(old(p.htmlClasses), isDark)
    ensures p.buttons == RelabelAll(old(p.buttons), isDark)
    ensures p.saved == old(p.saved) && p.navbarClasses == old(p.navbarClasses)
    ensures p.menuClasses == old(p.menuClasses) && p.menuIcon == old(p.menuIcon)
  {
    p.ApplyTheme(isDark);
    p.ApplyTheme(isDark);
    ApplyThemeLastWins(old(p.htmlClasses), isDark, isDark);
    RelabelAllLastWins(old(p.buttons), isDark, isDark);
  }
}
