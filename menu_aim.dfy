/** `MenuAimProvider`: remembers the latest menu item that may be activated, and keeps the
    stack of open menus. A menu that an activation opens is pushed when it is not open yet,
    and closes every menu from its own position on when it is open but not the innermost. */
module MenuAim {
  import opened Wrappers
  import opened ViewContainers

  /** An HTML element standing for an open menu, by identity. */
  type Menu = nat

  /** A `MenuAimTrigger`, by identity. */
  type Trigger = nat

  /** The `openMenus` update made when the activated item's menu arrives. */
  function OpenMenusAfter(openMenus: seq<Menu>, menu: Menu): (r: seq<Menu>)
  {
    var index := FirstIndex(openMenus, menu);
    if index == -1 then openMenus + [menu]
    else if index != |openMenus| - 1 then openMenus[..index]
    else openMenus
  }

  /** The three outcomes: a menu that is not open is pushed; the innermost open menu leaves
      the stack as it is; any other open menu is closed together with every menu opened
      after it, and the menus before it stay. */
  lemma OpenMenusAfterCases(openMenus: seq<Menu>, menu: Menu)
    ensures menu !in openMenus ==> OpenMenusAfter(openMenus, menu) == openMenus + [menu]
    ensures (openMenus != [] && openMenus[|openMenus| - 1] == menu && menu !in openMenus[..|openMenus| - 1]) ==>
              OpenMenusAfter(openMenus, menu) == openMenus
    ensures forall k :: 0 <= k < |openMenus| - 1 && openMenus[k] == menu && menu !in openMenus[..k] ==>
              OpenMenusAfter(openMenus, menu) == openMenus[..k]
  {
    forall k | 0 <= k < |openMenus| - 1 && openMenus[k] == menu && menu !in openMenus[..k]
      ensures OpenMenusAfter(openMenus, menu) == openMenus[..k]
    {
      FirstIndexIsFirst(openMenus, menu, k);
    }
    if openMenus != [] && openMenus[|openMenus| - 1] == menu && menu !in openMenus[..|openMenus| - 1] {
      FirstIndexIsFirst(openMenus, menu, |openMenus| - 1);
    }
  }

  /** `indexOf` finds the first occurrence: any position holding `x` with no `x` before it
      is the one returned. */
  lemma FirstIndexIsFirst(s: seq<Menu>, x: Menu, k: int)
    requires 0 <= k < |s| && s[k] == x && x !in s[..k]
    ensures FirstIndex(s, x) == k
  {
    assert x in s;
  }

  /** No menu is open twice. */
  ghost predicate Distinct(s: seq<Menu>)
  {
    forall i, j :: 0 <= i < j < |s| ==> s[i] != s[j]
  }

  /** The stack stays free of duplicates, and afterwards the menu is open exactly when it was
      not open before or was the innermost one: activating an open menu that is not the
      innermost closes it. */
  lemma OpenMenusStayDistinct(openMenus: seq<Menu>, menu: Menu)
    requires Distinct(openMenus)
    ensures var r := OpenMenusAfter(openMenus, menu);
      Distinct(r) &&
      (menu in r <==> menu !in openMenus || openMenus[|openMenus| - 1] == menu)
  {
    var r := OpenMenusAfter(openMenus, menu);
    var index := FirstIndex(openMenus, menu);
    if index != -1 && index != |openMenus| - 1 {
      assert menu !in openMenus[..index];
    } else if index != -1 {
      assert openMenus[|openMenus| - 1] == menu;
    }
  }

  /** The stack either grows by the menu or keeps a prefix of itself. */
  lemma OpenMenusAfterIsPushOrPrefix(openMenus: seq<Menu>, menu: Menu)
    ensures var r := OpenMenusAfter(openMenus, menu);
      r == openMenus + [menu] || (|r| <= |openMenus| && r == openMenus[..|r|])
  {
    var r := OpenMenusAfter(openMenus, menu);
    if FirstIndex(openMenus, menu) != -1 {
      assert r == openMenus[..|r|];
    }
  }

  /** Activating a menu that was just opened changes nothing; activating a menu that was
      just closed reopens it on top of the menus before it. */
  lemma ActivatingAgain(openMenus: seq<Menu>, menu: Menu)
    requires Distinct(openMenus)
    ensures var r := OpenMenusAfter(openMenus, menu);
      menu !in openMenus ==> OpenMenusAfter(r, menu) == r
    ensures var r := OpenMenusAfter(openMenus, menu);
      menu in openMenus && openMenus[|openMenus| - 1] != menu ==> OpenMenusAfter(r, menu) == r + [menu]
  {
    var r := OpenMenusAfter(openMenus, menu);
    OpenMenusStayDistinct(openMenus, menu);
    if menu !in openMenus {
      FirstIndexIsFirst(r, menu, |openMenus|);
    }
  }

  class MenuAimProvider {
    var openMenus: seq<Menu>
    var possibleMenuItem: Option<Trigger>
    /** The one pending activation timer, if any, by the number of timers started before
        it. */
    var timeout: Option<nat>
    var timersStarted: nat

    constructor ()
      ensures openMenus == [] && possibleMenuItem == None && timeout == None && timersStarted == 0
    {
      openMenus := [];
      possibleMenuItem := None;
      timeout := None;
      timersStarted := 0;
    }

    /** `possiblyActivateMenuItem`: the latest item replaces any earlier candidate, and a new
        activation timer replaces the pending one. */
    method PossiblyActivateMenuItem(menuItem: Trigger)
      modifies this`possibleMenuItem, this`timeout, this`timersStarted
      ensures possibleMenuItem == Some(menuItem)
      ensures timeout == Some(old(timersStarted)) && timersStarted == old(timersStarted) + 1
    {
      possibleMenuItem := Some(menuItem);
      // Clearing the pending timer and starting a new one leaves the new one alone pending.
      timeout := Some(timersStarted);
      timersStarted := timersStarted + 1;
    }

    /** `activateHoveringMenuItem`, with `menu` the menu the candidate's activation emits:
        nothing happens without a candidate. */
    method ActivateHoveringMenuItem(menu: Menu)
      modifies this`openMenus
      ensures possibleMenuItem.None? ==> openMenus == old(openMenus)
      ensures possibleMenuItem.Some? ==> openMenus == OpenMenusAfter(old(openMenus), menu)
    {
      if possibleMenuItem.None? {
        return;
      }
      var index := FirstIndex(openMenus, menu);
      if index == -1 {
        openMenus := openMenus + [menu];
      } else if index != |openMenus| - 1 {
        openMenus := openMenus[..index];
      }
    }
  }
}
