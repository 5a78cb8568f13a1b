/** The two class rules of Js/main.js besides the theme: the mobile menu and the navbar on scroll. */
module NavRules {
  const Hidden := "hidden"
  const ShadowMd := "shadow-md"
  const PyTwo := "py-2"
  const PyThree := "py-3"

  /** The scroll offset beyond which the navbar is compact and shadowed. */
  const ScrollThreshold: real := 20.0

  /** The menu's class list after `classList.toggle('hidden')`. */
  function MenuToggled(classes: set<string>): (r: set<string>)
    ensures Hidden in r <==> Hidden !in classes
    ensures r - {Hidden} == classes - {Hidden}
  {
    if Hidden in classes then classes - {Hidden} else classes + {Hidden}
  }

  /** The menu button's icon for a menu that is hidden or open. */
  function MenuIconFor(hidden: bool): (s: string) {
    if hidden then "menu" else "close"
  }

  /** Toggling the menu twice restores its class list. */
  lemma MenuToggleInvolution(classes: set<string>)
    ensures MenuToggled(MenuToggled(classes)) == classes
  {
  }

  /** The navbar's class list after the scroll handler ran at offset `scrollY`. */
  function NavbarStyled(classes: set<string>, scrollY: real): (r: set<string>)
    ensures scrollY > ScrollThreshold ==> ShadowMd in r && PyTwo in r && PyThree !in r
    ensures scrollY <= ScrollThreshold ==> ShadowMd !in r && PyTwo !in r && PyThree in r
    ensures r - {ShadowMd, PyTwo, PyThree} == classes - {ShadowMd, PyTwo, PyThree}
  {
    if scrollY > ScrollThreshold then
      classes + {ShadowMd} + {PyTwo} - {PyThree}
    else
      classes - {ShadowMd} + {PyThree} - {PyTwo}
  }

  /**
   * The navbar's classes depend only on which side of the threshold the offset
   * lies, so repeated scroll events on one side change nothing further.
   */
  lemma NavbarSameSide(classes: set<string>, y1: real, y2: real)
    requires (y1 > ScrollThreshold) == (y2 > ScrollThreshold)
    ensures NavbarStyled(NavbarStyled(classes, y1), y2) == NavbarStyled(classes, y1)
    ensures NavbarStyled(classes, y1) == NavbarStyled(classes, y2)
  {
  }
}
