/**
 * The off-canvas mobile navigation of `initMobileMenu` (scripts.js:250-295).
 *
 * One boolean, `isMenuOpen`, is mirrored by `setMenu` into the burger
 * button's aria-expanded attribute, the menu's `hidden` flag, the body's
 * overflow lock and the menu's `is-open` class.  Those DOM properties are
 * fields here.
 */
module MobileMenu {

  class MenuController {
    var isMenuOpen: bool
    var ariaExpanded: string
    var hidden: bool
    var bodyOverflowHidden: bool
    var isOpenClass: bool

    /** Every DOM mirror agrees with `isMenuOpen`. */
    ghost predicate Valid()
      reads this
    {
      && ariaExpanded == (if isMenuOpen then "true" else "false")
      && hidden == !isMenuOpen
      && bodyOverflowHidden == isMenuOpen
      && isOpenClass == isMenuOpen
    }

    /** Set-up (scripts.js:256), with the markup in its closed state. */
    constructor ()
      ensures Valid() && !isMenuOpen
    {
      isMenuOpen := false;
      ariaExpanded := "false";
      hidden := true;
      bodyOverflowHidden := false;
      isOpenClass := false;
    }

    /** `setMenu` (scripts.js:258-269). */
    method SetMenu(open: bool)
      modifies this
      ensures Valid() && isMenuOpen == open
    {
      isMenuOpen := open;
      ariaExpanded := if open then "true" else "false";
      hidden := !open;
      bodyOverflowHidden := open;
      if open {
        isOpenClass := true;
      } else {
        isOpenClass := false;
      }
    }

    /** The burger button flips the menu; its click does not reach the document handler (scripts.js:271-274). */
    method OnBurgerClick()
      requires Valid()
      modifies this
      ensures Valid() && isMenuOpen == !old(isMenuOpen)
    {
      SetMenu(!isMenuOpen);
    }

    /** A menu link closes an open menu (scripts.js:276-280). */
    method OnLinkClick()
      requires Valid()
      modifies this
      ensures Valid() && !isMenuOpen
      ensures !old(isMenuOpen) ==> unchanged(this)
    {
      if isMenuOpen {
        SetMenu(false);
      }
    }

    /**
     * A click anywhere in the document (scripts.js:282-288): closes an open
     * menu unless it landed inside the menu or on the burger; never opens it.
     */
    method OnDocumentClick(insideMenu: bool, onBurger: bool)
      requires Valid()
      modifies this
      ensures Valid()
      ensures isMenuOpen == (old(isMenuOpen) && (insideMenu || onBurger))
      ensures isMenuOpen ==> unchanged(this)
    {
      if isMenuOpen && !insideMenu && !onBurger {
        SetMenu(false);
      }
    }

    /** A key press (scripts.js:290-294): Escape closes an open menu; nothing opens it. */
    method OnKeyDown(key: string)
      requires Valid()
      modifies this
      ensures Valid()
      ensures isMenuOpen == (old(isMenuOpen) && key != "Escape")
      ensures isMenuOpen ==> unchanged(this)
    {
      if key == "Escape" && isMenuOpen {
        SetMenu(false);
      }
    }
  }
}
