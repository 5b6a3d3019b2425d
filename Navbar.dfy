/** The header and its two menus: the desktop mega-menu that follows the mouse
    over the top-level labels, and the side drawer that opens on the hamburger
    and drills into one label's sections. Leaf selections are forwarded to the
    application shell as the composite string `category:leaf`. */
module Navbar {
  import opened NavData
  import opened AppRouter
  import StandardMenu

  /** The string `handleFunctionSelect(funcName, category)` forwards. */
  function Selection(category: string, funcName: string): (r: string)
    ensures |r| == |category| + 1 + |funcName|
    ensures r[..|category|] == category && r[|category|] == ':' && r[|category| + 1..] == funcName
  {
    category + ":" + funcName
  }

  /** Categories carry no colon, so two different (category, leaf) pairs never
      forward the same string, even for a leaf such as "1:1 Customer Engagement". */
  lemma {:induction false} SelectionInjective(c1: string, f1: string, c2: string, f2: string)
    requires ':' !in c1 && ':' !in c2
    requires Selection(c1, f1) == Selection(c2, f2)
    ensures c1 == c2 && f1 == f2
  {
    var s := Selection(c1, f1);
    assert |c1| == |c2| by {
      assert s[|c1|] == ':' && s[|c2|] == ':';
      assert forall k :: 0 <= k < |c1| ==> s[k] == c1[k];
      assert forall k :: 0 <= k < |c2| ==> s[k] == c2[k];
    }
    assert c1 == s[..|c1|] == c2;
  }

  /** The secondary links at the foot of the drawer's main list. */
  const SecondaryLinks: seq<string> := ["OFFICES", "ALUMNI", "MEDIA CENTER", "SUBSCRIBE", "CONTACT"]

  /** Which panel the mega-menu renders; only the Digital one is handed no
      selection callback. */
  datatype Panel = NoPanel | DigitalPanel(item: NavItem) | IndustriesPanel(item: NavItem) | StandardPanel(item: NavItem)

  /** The label is one of the top-level entries. */
  predicate IsNavLabel(name: string) {
    exists i :: 0 <= i < |NavItems| && NavItems[i].name == name
  }

  /** The label is a top-level entry that has a dropdown. */
  predicate HasDropdown(name: string) {
    exists i :: 0 <= i < |NavItems| && NavItems[i].name == name && NavItems[i].dropdown.Some?
  }

  /** `Find` on the table returns an entry with a dropdown exactly for the labels
      that have one. */
  lemma FindDropdown(name: string)
    ensures (Find(NavItems, name).Some? && Find(NavItems, name).value.dropdown.Some?) <==> HasDropdown(name)
    ensures Find(NavItems, name).Some? ==> Find(NavItems, name).value.name == name
  {
    var r := Find(NavItems, name);
    if HasDropdown(name) {
      var i :| 0 <= i < |NavItems| && NavItems[i].name == name && NavItems[i].dropdown.Some?;
      NavItemsFound();
      assert r == Some(NavItems[i]);
    }
    if r.Some? {
      var i :| 0 <= i < |NavItems| && NavItems[i] == r.value && NavItems[i].name == name
                && forall j :: 0 <= j < i ==> NavItems[j].name != name;
      NavItemsFound();
    }
  }

  class Navbar {
    /** The hovered top-level label; `None` is the source's `null`. */
    var activeMenu: Option<string>
    var isSideMenuOpen: bool
    /** `"main"` or the label the drawer has drilled into. */
    var sideMenuView: string
    /** The label the mounted mega-menu panel was drawn for: the `activeMenu`
        its `onMouseEnter` closure captured. The panel stays mounted while it
        animates out after the menu closes; `None` once it is unmounted. */
    var panelLabel: Option<string>
    /** Deferred `setSideMenuView('main')` calls scheduled by closing the drawer
        and not yet run; none is ever cancelled. */
    var pendingResets: nat
    /** The `onVibeChange` callback; `null` when the header is rendered without one. */
    const onVibeChange: App?
    /** Every string handed to `onVibeChange`, oldest first. */
    ghost var forwarded: seq<string>

    ghost predicate Valid()
      reads this
    {
      (activeMenu.Some? ==> IsNavLabel(activeMenu.value))
      && (sideMenuView == "main" || HasDropdown(sideMenuView))
      && (panelLabel.Some? ==> panelLabel.value != "" && HasDropdown(panelLabel.value))
      && (activeMenu.Some? && activeMenu.value != "" && HasDropdown(activeMenu.value) ==> panelLabel == activeMenu)
    }

    constructor(callback: App?)
      ensures Valid()
      ensures activeMenu == None && !isSideMenuOpen && sideMenuView == "main"
      ensures pendingResets == 0 && panelLabel == None && onVibeChange == callback && forwarded == []
    {
      activeMenu := None;
      isSideMenuOpen := false;
      sideMenuView := "main";
      pendingResets := 0;
      panelLabel := None;
      onVibeChange := callback;
      forwarded := [];
    }

    /** `currentItem`: the entry of the hovered label; an empty label is falsy. */
    function CurrentItem(): (r: Option<NavItem>)
      reads this
      ensures r.Some? ==> activeMenu.Some? && r.value.name == activeMenu.value
      ensures activeMenu.Some? && activeMenu.value != "" && IsNavLabel(activeMenu.value) ==> r.Some?
    {
      if activeMenu.Some? && activeMenu.value != "" then
        var r := Find(NavItems, activeMenu.value);
        FindDropdown(activeMenu.value);
        r
      else None
    }

    /** The mega-menu under the header: shown only while the hovered label names
        an entry with a dropdown; Digital and Industries have their own panels. */
    function MegaMenu(): (p: Panel)
      reads this
      ensures p != NoPanel <==> activeMenu.Some? && activeMenu.value != "" && HasDropdown(activeMenu.value)
      ensures p.DigitalPanel? <==> p != NoPanel && activeMenu.value == "Digital"
      ensures p.IndustriesPanel? <==> p != NoPanel && activeMenu.value == "Industries"
      ensures p != NoPanel ==> p.item.name == activeMenu.value && p.item.dropdown.Some?
    {
      var item := CurrentItem();
      if activeMenu.Some? && activeMenu.value != "" then FindDropdown(activeMenu.value); Shown(activeMenu.value, item)
      else NoPanel
    }

    /** The entry the drawer has drilled into (`activeNavItem`). */
    function DrawerItem(): (r: Option<NavItem>)
      reads this
      ensures r.Some? ==> r.value.name == sideMenuView && sideMenuView != "main"
      ensures Valid() && sideMenuView != "main" ==> r.Some? && r.value.dropdown.Some?
    {
      if sideMenuView == "main" then None
      else
        FindDropdown(sideMenuView);
        Find(NavItems, sideMenuView)
    }

    /** `onVibeChange?.(vibe)`: the shell handles the string when a callback is present. */
    method Notify(vibe: string)
      modifies this, onVibeChange
      ensures onVibeChange != null ==> forwarded == old(forwarded) + [vibe]
      ensures onVibeChange != null ==> onVibeChange.activeVibe == vibe && onVibeChange.view == Dispatch(vibe)
      ensures onVibeChange != null ==> onVibeChange.Valid()
      ensures onVibeChange != null ==> onVibeChange.scrollRequests == old(onVibeChange.scrollRequests) + Scrolls(vibe)
      ensures onVibeChange == null ==> forwarded == old(forwarded)
      ensures activeMenu == old(activeMenu) && isSideMenuOpen == old(isSideMenuOpen)
      ensures sideMenuView == old(sideMenuView) && pendingResets == old(pendingResets)
      ensures panelLabel == old(panelLabel)
    {
      if onVibeChange != null {
        onVibeChange.HandleVibeChange(vibe);
        forwarded := forwarded + [vibe];
      }
    }

    /** Mouse enters the `i`-th top-level label; when the label has a
        dropdown the panel is drawn for it. */
    method EnterMenu(i: nat)
      requires Valid() && i < |NavItems|
      modifies this
      ensures Valid()
      ensures activeMenu == Some(NavItems[i].name)
      ensures MegaMenu() != NoPanel ==> panelLabel == activeMenu
      ensures MegaMenu() == NoPanel ==> panelLabel == old(panelLabel)
      ensures isSideMenuOpen == old(isSideMenuOpen) && sideMenuView == old(sideMenuView)
      ensures pendingResets == old(pendingResets) && forwarded == old(forwarded)
    {
      var name := NavItems[i].name;
      activeMenu := Some(name);
      if name != "" && HasDropdown(name) {
        panelLabel := Some(name);
      }
    }

    /** Mouse leaves a top-level label or the open mega-menu. */
    method LeaveMenu()
      requires Valid()
      modifies this
      ensures Valid()
      ensures activeMenu == None && MegaMenu() == NoPanel && panelLabel == old(panelLabel)
      ensures isSideMenuOpen == old(isSideMenuOpen) && sideMenuView == old(sideMenuView)
      ensures pendingResets == old(pendingResets) && forwarded == old(forwarded)
    {
      activeMenu := None;
    }

    /** Mouse enters the mounted mega-menu: `setActiveMenu(activeMenu)` with
        the label the panel was drawn for, which reopens a panel that is
        animating out and keeps an open one as it is. */
    method EnterMegaMenu()
      requires Valid() && panelLabel.Some?
      modifies this
      ensures Valid()
      ensures activeMenu == old(panelLabel) && panelLabel == old(panelLabel)
      ensures MegaMenu() != NoPanel && MegaMenu().item.name == panelLabel.value
      ensures old(MegaMenu()) != NoPanel ==> MegaMenu() == old(MegaMenu())
      ensures isSideMenuOpen == old(isSideMenuOpen) && sideMenuView == old(sideMenuView)
      ensures pendingResets == old(pendingResets) && forwarded == old(forwarded)
    {
      activeMenu := panelLabel;
    }

    /** The closed panel finishes animating out and is unmounted. */
    method UnmountPanel()
      requires Valid() && MegaMenu() == NoPanel
      modifies this
      ensures Valid()
      ensures panelLabel == None && activeMenu == old(activeMenu)
      ensures isSideMenuOpen == old(isSideMenuOpen) && sideMenuView == old(sideMenuView)
      ensures pendingResets == old(pendingResets) && forwarded == old(forwarded)
    {
      panelLabel := None;
    }

    /** The hamburger button. */
    method OpenSideMenu()
      requires Valid()
      modifies this
      ensures Valid()
      ensures isSideMenuOpen
      ensures activeMenu == old(activeMenu) && sideMenuView == old(sideMenuView)
      ensures pendingResets == old(pendingResets) && forwarded == old(forwarded)
      ensures panelLabel == old(panelLabel)
    {
      isSideMenuOpen := true;
    }

    /** `handleSideMenuClose`: the drawer shuts now, the view resets later. */
    method CloseSideMenu()
      requires Valid()
      modifies this
      ensures Valid()
      ensures !isSideMenuOpen && pendingResets == old(pendingResets) + 1
      ensures activeMenu == old(activeMenu) && sideMenuView == old(sideMenuView)
      ensures forwarded == old(forwarded) && panelLabel == old(panelLabel)
    {
      isSideMenuOpen := false;
      pendingResets := pendingResets + 1;
    }

    /** One scheduled reset runs: `setSideMenuView('main')`, whatever happened since. */
    method FireReset()
      requires Valid() && pendingResets > 0
      modifies this
      ensures Valid()
      ensures sideMenuView == "main" && pendingResets == old(pendingResets) - 1
      ensures activeMenu == old(activeMenu) && isSideMenuOpen == old(isSideMenuOpen)
      ensures forwarded == old(forwarded) && panelLabel == old(panelLabel)
    {
      sideMenuView := "main";
      pendingResets := pendingResets - 1;
    }

    /** `handleFunctionSelect(funcName, category)`: with a callback, forward the
        composite string once, drop the hovered menu and close the drawer;
        without one, do nothing at all. */
    method SelectFunction(funcName: string, category: string)
      requires Valid()
      modifies this, onVibeChange
      ensures Valid()
      ensures onVibeChange != null ==>
                forwarded == old(forwarded) + [Selection(category, funcName)]
                && onVibeChange.activeVibe == Selection(category, funcName)
                && onVibeChange.view == Route(Selection(category, funcName))
                && onVibeChange.scrollRequests == old(onVibeChange.scrollRequests) + 1
                && activeMenu == None && !isSideMenuOpen
                && sideMenuView == old(sideMenuView) && pendingResets == old(pendingResets) + 1
      ensures onVibeChange == null ==>
                forwarded == old(forwarded) && activeMenu == old(activeMenu)
                && isSideMenuOpen == old(isSideMenuOpen) && sideMenuView == old(sideMenuView)
                && pendingResets == old(pendingResets)
      ensures panelLabel == old(panelLabel)
    {
      if onVibeChange != null {
        var s := Selection(category, funcName);
        assert s != "home" && s != "contact" by {
          assert s[|category|] == ':';
          assert ':' !in "home" && ':' !in "contact";
        }
        Notify(s);
        activeMenu := None;
        CloseSideMenu();
      }
    }

    /** A button of the drawer's main list: an entry with a dropdown drills into
        its label, one without closes the drawer. The main list is drawn only
        on the main view of an open drawer. */
    method MainListClick(i: nat)
      requires Valid() && i < |NavItems|
      requires isSideMenuOpen && sideMenuView == "main"
      modifies this
      ensures Valid()
      ensures NavItems[i].dropdown.Some? ==>
                sideMenuView == NavItems[i].name && isSideMenuOpen == old(isSideMenuOpen)
                && pendingResets == old(pendingResets)
      ensures NavItems[i].dropdown.None? ==>
                !isSideMenuOpen && sideMenuView == old(sideMenuView)
                && pendingResets == old(pendingResets) + 1
      ensures activeMenu == old(activeMenu) && forwarded == old(forwarded)
      ensures panelLabel == old(panelLabel)
    {
      if NavItems[i].dropdown.Some? {
        sideMenuView := NavItems[i].name;
      } else {
        CloseSideMenu();
      }
    }

    /** The drawer's Back button. */
    method DrawerBack()
      requires Valid()
      modifies this
      ensures Valid()
      ensures sideMenuView == "main"
      ensures activeMenu == old(activeMenu) && isSideMenuOpen == old(isSideMenuOpen)
      ensures pendingResets == old(pendingResets) && forwarded == old(forwarded)
      ensures panelLabel == old(panelLabel)
    {
      sideMenuView := "main";
    }

    /** Leaf `li` of section `si` in the drilled-into view of the open drawer. */
    method DrawerLeafClick(si: nat, li: nat)
      requires Valid() && isSideMenuOpen && sideMenuView != "main"
      requires si < |DrawerItem().value.dropdown.value.sections|
      requires li < |DrawerItem().value.dropdown.value.sections[si].links|
      modifies this, onVibeChange
      ensures Valid()
      ensures var section := old(DrawerItem()).value.dropdown.value.sections[si];
              var vibe := Selection(section.category, section.links[li]);
              onVibeChange != null ==>
                forwarded == old(forwarded) + [vibe]
                && onVibeChange.activeVibe == vibe && onVibeChange.view == Route(vibe)
                && onVibeChange.scrollRequests == old(onVibeChange.scrollRequests) + 1
                && activeMenu == None && !isSideMenuOpen
                && sideMenuView == old(sideMenuView) && pendingResets == old(pendingResets) + 1
      ensures onVibeChange == null ==>
                forwarded == old(forwarded) && activeMenu == old(activeMenu)
                && isSideMenuOpen == old(isSideMenuOpen) && sideMenuView == old(sideMenuView)
                && pendingResets == old(pendingResets)
      ensures panelLabel == old(panelLabel)
    {
      var section := DrawerItem().value.dropdown.value.sections[si];
      SelectFunction(section.links[li], section.category);
    }

    /** A leaf button of the generic mega-menu panel, which the header hands
        `handleFunctionSelect` as its callback. */
    method StandardPanelClick(si: nat, li: nat)
      requires Valid() && MegaMenu().StandardPanel?
      requires si < |MegaMenu().item.dropdown.value.sections|
      requires li < |MegaMenu().item.dropdown.value.sections[si].links|
      modifies this, onVibeChange
      ensures Valid()
      ensures var pick := StandardMenu.Clicked(old(MegaMenu()).item.dropdown.value, si, li, true).value;
              var vibe := Selection(pick.category, pick.funcName);
              onVibeChange != null ==>
                forwarded == old(forwarded) + [vibe]
                && onVibeChange.activeVibe == vibe && onVibeChange.view == Route(vibe)
                && onVibeChange.scrollRequests == old(onVibeChange.scrollRequests) + 1
                && activeMenu == None && MegaMenu() == NoPanel && !isSideMenuOpen
                && sideMenuView == old(sideMenuView) && pendingResets == old(pendingResets) + 1
      ensures onVibeChange == null ==>
                forwarded == old(forwarded) && activeMenu == old(activeMenu)
                && isSideMenuOpen == old(isSideMenuOpen) && sideMenuView == old(sideMenuView)
                && pendingResets == old(pendingResets)
      ensures panelLabel == old(panelLabel)
    {
      var pick := StandardMenu.Clicked(MegaMenu().item.dropdown.value, si, li, true).value;
      SelectFunction(pick.funcName, pick.category);
    }

    /** The logo, clicked or hovered, asks for the home page. */
    method ActivateLogo()
      requires Valid()
      modifies this, onVibeChange
      ensures Valid()
      ensures onVibeChange != null ==>
                forwarded == old(forwarded) + ["home"] && onVibeChange.Valid()
                && onVibeChange.activeVibe == "home" && onVibeChange.view == Home
                && onVibeChange.scrollRequests == old(onVibeChange.scrollRequests)
      ensures onVibeChange == null ==> forwarded == old(forwarded)
      ensures activeMenu == old(activeMenu) && isSideMenuOpen == old(isSideMenuOpen)
      ensures sideMenuView == old(sideMenuView) && pendingResets == old(pendingResets)
      ensures panelLabel == old(panelLabel)
    {
      Notify("home");
    }

    /** The Contact Us button, hovered or clicked. */
    method ActivateContactUs()
      requires Valid()
      modifies this, onVibeChange
      ensures Valid()
      ensures onVibeChange != null ==>
                forwarded == old(forwarded) + ["contact"] && onVibeChange.Valid()
                && onVibeChange.activeVibe == "contact" && onVibeChange.view == Contact
                && onVibeChange.scrollRequests == old(onVibeChange.scrollRequests) + 1
      ensures onVibeChange == null ==> forwarded == old(forwarded)
      ensures activeMenu == old(activeMenu) && isSideMenuOpen == old(isSideMenuOpen)
      ensures sideMenuView == old(sideMenuView) && pendingResets == old(pendingResets)
      ensures panelLabel == old(panelLabel)
    {
      Notify("contact");
    }

    /** Any of the drawer's secondary links, whatever its caption; they are
        drawn below the main list of the open drawer. */
    method ActivateSecondaryLink(i: nat)
      requires Valid() && i < |SecondaryLinks|
      requires isSideMenuOpen && sideMenuView == "main"
      modifies this, onVibeChange
      ensures Valid()
      ensures onVibeChange != null ==>
                forwarded == old(forwarded) + ["contact"] && onVibeChange.Valid()
                && onVibeChange.activeVibe == "contact" && onVibeChange.view == Contact
                && onVibeChange.scrollRequests == old(onVibeChange.scrollRequests) + 1
      ensures onVibeChange == null ==> forwarded == old(forwarded)
      ensures activeMenu == old(activeMenu) && isSideMenuOpen == old(isSideMenuOpen)
      ensures sideMenuView == old(sideMenuView) && pendingResets == old(pendingResets)
      ensures panelLabel == old(panelLabel)
    {
      Notify("contact");
    }
  }

  /** Moving the pointer down from label `i` into its panel: the label's
      mouse-leave closes the menu first, and the panel, still mounted while it
      animates out, reopens it for the label it was drawn with. */
  method PointerFromLabelIntoPanel(callback: App?, i: nat) returns (n: Navbar)
    requires i < |NavItems|
    ensures n.Valid()
    ensures n.activeMenu == Some(NavItems[i].name)
    ensures n.MegaMenu() != NoPanel && n.MegaMenu().item == NavItems[i]
  {
    NavItemsFound();
    assert HasDropdown(NavItems[i].name);
    n := new Navbar(callback);
    n.EnterMenu(i);
    n.LeaveMenu();
    n.EnterMegaMenu();
  }

  /** The panel chosen for a label whose entry has a dropdown. */
  function Shown(name: string, item: Option<NavItem>): (p: Panel)
    requires name != ""
    requires (item.Some? && item.value.dropdown.Some?) <==> HasDropdown(name)
    requires item.Some? ==> item.value.name == name
    ensures p != NoPanel <==> HasDropdown(name)
    ensures p.DigitalPanel? <==> p != NoPanel && name == "Digital"
    ensures p.IndustriesPanel? <==> p != NoPanel && name == "Industries"
    ensures p != NoPanel ==> p.item.name == name && p.item.dropdown.Some?
  {
    if !(item.Some? && item.value.dropdown.Some?) then NoPanel
    else if name == "Digital" then DigitalPanel(item.value)
    else if name == "Industries" then IndustriesPanel(item.value)
    else StandardPanel(item.value)
  }
}
