// The mobile menu (initMobileMenu, index.js:257-317): an overlay opened
// and closed through two aria attributes, the body's overflow style, and
// the active flags of the mobile navigation links.
module MobileMenu {
  import opened Wrappers

  /** The menu is open: the button says aria-expanded="true", the overlay
      aria-hidden="false", and the page behind does not scroll. */
  predicate OpenState(buttonExpanded: Option<string>, overlayHidden: Option<string>, bodyOverflow: string) {
    buttonExpanded == Some("true") && overlayHidden == Some("false") && bodyOverflow == "hidden"
  }

  /** The menu is closed, with the three values the other way round. */
  predicate ClosedState(buttonExpanded: Option<string>, overlayHidden: Option<string>, bodyOverflow: string) {
    buttonExpanded == Some("false") && overlayHidden == Some("true") && bodyOverflow == ""
  }

  /** The flags a click on link `i` leaves: that link active, no other. */
  function OnlyActive(n: nat, i: nat): (flags: seq<bool>)
    requires i < n
    ensures |flags| == n && flags[i]
    ensures forall k | 0 <= k < n :: flags[k] ==> k == i
  {
    seq(n, k => k == i)
  }

  /** One page's mobile menu. `hrefs[k]` is the href attribute of mobile
      nav link k and `linkActive[k]` whether it has the `active` class. */
  class Menu {
    var buttonExpanded: Option<string>
    var overlayHidden: Option<string>
    var bodyOverflow: string
    const hrefs: seq<Option<string>>
    const linkActive: array<bool>

    predicate Valid()
      reads this
    {
      linkActive.Length == |hrefs|
    }

    /** The menu as the listeners see it: open when the button says so. */
    predicate IsOpen()
      reads this
    {
      buttonExpanded == Some("true")
    }

    predicate Closed()
      reads this
    {
      ClosedState(buttonExpanded, overlayHidden, bodyOverflow)
    }

    /** The two attributes and the overflow agree on open or closed. */
    predicate Synced()
      reads this
    {
      OpenState(buttonExpanded, overlayHidden, bodyOverflow) || Closed()
    }

    /** The state the page markup starts in. */
    constructor (expanded: Option<string>, hidden: Option<string>, overflow: string,
                 linkHrefs: seq<Option<string>>, active: seq<bool>)
      requires |active| == |linkHrefs|
      ensures Valid() && fresh(linkActive)
      ensures buttonExpanded == expanded && overlayHidden == hidden && bodyOverflow == overflow
      ensures hrefs == linkHrefs && linkActive[..] == active
    {
      buttonExpanded, overlayHidden, bodyOverflow := expanded, hidden, overflow;
      hrefs := linkHrefs;
      var flags := new bool[|active|];
      forall k | 0 <= k < |active| {
        flags[k] := active[k];
      }
      linkActive := flags;
    }

    /** openMobileMenu. */
    method Open()
      modifies this
      ensures OpenState(buttonExpanded, overlayHidden, bodyOverflow)
    {
      overlayHidden := Some("false");
      buttonExpanded := Some("true");
      bodyOverflow := "hidden";
    }

    /** closeMobileMenu, also exposed for the mobile language buttons. */
    method Close()
      modifies this
      ensures Closed()
    {
      overlayHidden := Some("true");
      buttonExpanded := Some("false");
      bodyOverflow := "";
    }

    /** A click on the menu button flips the open state. */
    method ButtonClick()
      modifies this
      ensures IsOpen() <==> !old(IsOpen())
      ensures Synced()
    {
      var isOpen := buttonExpanded == Some("true");
      if isOpen {
        Close();
      } else {
        Open();
      }
    }

    /** A click on the overlay closes the menu only when the target is the
        overlay itself, not the menu panel inside it. */
    method OverlayClick(onOverlay: bool)
      modifies this
      ensures onOverlay ==> Closed()
      ensures !onOverlay ==> buttonExpanded == old(buttonExpanded) && overlayHidden == old(overlayHidden)
                             && bodyOverflow == old(bodyOverflow)
    {
      if onOverlay {
        Close();
      }
    }

    /** A key press: Escape closes the menu when the overlay is shown; any
        other key, or Escape on a hidden overlay, changes nothing. */
    method KeyDown(key: string)
      modifies this
      ensures key == "Escape" && old(overlayHidden) == Some("false") ==> Closed()
      ensures !(key == "Escape" && old(overlayHidden) == Some("false")) ==>
                buttonExpanded == old(buttonExpanded) && overlayHidden == old(overlayHidden)
                && bodyOverflow == old(bodyOverflow)
    {
      if key == "Escape" && overlayHidden == Some("false") {
        Close();
      }
    }

    /** A click on mobile nav link `i` closes the menu, then makes that link
        the only active one. A link without an href makes the handler throw
        right after closing, before any flag is touched. */
    method NavLinkClick(i: nat)
      requires Valid() && i < |hrefs|
      modifies this, linkActive
      ensures Valid() && Closed()
      ensures hrefs[i].Some? ==> linkActive[..] == OnlyActive(|hrefs|, i)
      ensures hrefs[i].None? ==> linkActive[..] == old(linkActive[..])
    {
      Close();
      if hrefs[i].None? {
        return;
      }
      for k := 0 to linkActive.Length
        modifies linkActive
        invariant forall m | 0 <= m < k :: !linkActive[m]
      {
        linkActive[k] := false;
      }
      linkActive[i] := true;
    }
  }
}
