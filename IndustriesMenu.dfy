/** The Industries mega-menu panel: like the generic panel it forwards
    `(link, section.category)`, and in addition it keeps one highlighted link,
    set by hovering or clicking and cleared when the pointer leaves. */
module IndustriesMenu {
  import opened NavData
  import opened AppRouter
  import opened Navbar

  /** The guard `!item.dropdown || !item.dropdown.sections`: `sections` is a
      required array of the dropdown and an empty array is truthy, so only a
      missing dropdown suppresses the panel. */
  predicate Renders(item: NavItem): (b: bool)
    ensures b <==> item.dropdown.Some?
    ensures item.dropdown.Some? && |item.dropdown.value.sections| == 0 ==> b
  {
    item.dropdown.Some?
  }

  class IndustriesPanel {
    const item: NavItem
    /** `onSelectFunction`; the header passes its `handleFunctionSelect`. */
    const onSelectFunction: Navbar?
    /** The highlighted link; `None` is the source's `null`. */
    var activeLink: Option<string>

    constructor(item: NavItem, onSelectFunction: Navbar?)
      ensures this.item == item && this.onSelectFunction == onSelectFunction
      ensures activeLink == None
    {
      this.item := item;
      this.onSelectFunction := onSelectFunction;
      activeLink := None;
    }

    /** The link `li` of section `si` is drawn highlighted: the highlight is
        keyed by the link's text, so nothing is highlighted while `activeLink`
        is null, and every link with the highlighted text is drawn highlighted. */
    predicate Highlighted(si: nat, li: nat): (b: bool)
      reads this
      requires Renders(item) && si < |item.dropdown.value.sections|
      requires li < |item.dropdown.value.sections[si].links|
      ensures activeLink.None? ==> !b
      ensures b ==> activeLink.value in item.dropdown.value.sections[si].links
      ensures b <==> forall sj, lj :: 0 <= sj < |item.dropdown.value.sections|
                       && 0 <= lj < |item.dropdown.value.sections[sj].links|
                       && item.dropdown.value.sections[sj].links[lj] == item.dropdown.value.sections[si].links[li]
                       ==> activeLink == Some(item.dropdown.value.sections[sj].links[lj])
    {
      activeLink == Some(item.dropdown.value.sections[si].links[li])
    }

    /** The callback's own callback, which a click reaches through the header. */
    function Shell(): App?
      reads this
    {
      if onSelectFunction == null then null else onSelectFunction.onVibeChange
    }

    /** Clicking a link highlights it and forwards `(link, category)` when a
        callback is present. */
    method Click(si: nat, li: nat)
      requires Renders(item) && si < |item.dropdown.value.sections|
      requires li < |item.dropdown.value.sections[si].links|
      requires onSelectFunction != null ==> onSelectFunction.Valid()
      modifies this, onSelectFunction, Shell()
      ensures activeLink == Some(item.dropdown.value.sections[si].links[li])
      ensures onSelectFunction != null ==> onSelectFunction.Valid()
      ensures var section := item.dropdown.value.sections[si];
              var vibe := Selection(section.category, section.links[li]);
              var header := onSelectFunction;
              header != null && header.onVibeChange != null ==>
                header.forwarded == old(header.forwarded) + [vibe]
                && header.onVibeChange.activeVibe == vibe && header.onVibeChange.view == Route(vibe)
                && header.onVibeChange.scrollRequests == old(header.onVibeChange.scrollRequests) + 1
                && header.activeMenu == None && !header.isSideMenuOpen
                && header.sideMenuView == old(header.sideMenuView)
                && header.pendingResets == old(header.pendingResets) + 1
      ensures var header := onSelectFunction;
              header != null && header.onVibeChange == null ==>
                header.forwarded == old(header.forwarded) && header.activeMenu == old(header.activeMenu)
                && header.isSideMenuOpen == old(header.isSideMenuOpen)
                && header.sideMenuView == old(header.sideMenuView)
                && header.pendingResets == old(header.pendingResets)
      ensures onSelectFunction != null ==> onSelectFunction.panelLabel == old(onSelectFunction.panelLabel)
    {
      var section := item.dropdown.value.sections[si];
      activeLink := Some(section.links[li]);
      if onSelectFunction != null {
        onSelectFunction.SelectFunction(section.links[li], section.category);
      }
    }

    /** The pointer enters a link. */
    method Hover(si: nat, li: nat)
      requires Renders(item) && si < |item.dropdown.value.sections|
      requires li < |item.dropdown.value.sections[si].links|
      modifies this
      ensures activeLink == Some(item.dropdown.value.sections[si].links[li])
      ensures Highlighted(si, li)
    {
      activeLink := Some(item.dropdown.value.sections[si].links[li]);
    }

    /** The pointer leaves a link. */
    method Leave()
      modifies this
      ensures activeLink == None
    {
      activeLink := None;
    }
  }
}
