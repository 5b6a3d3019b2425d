/** The generic mega-menu panel: a title column and a grid of sections whose
    leaf buttons hand `(link, section.category)` to the selection callback. The
    panel has no state of its own. */
module StandardMenu {
  import opened NavData

  /** The two arguments a leaf button passes to `onSelectFunction`. */
  datatype Pick = Pick(funcName: string, category: string)

  /** The guard `!item.dropdown`: the panel renders only for an entry with a
      dropdown, and then draws one button per link. */
  predicate Renders(item: NavItem): (b: bool)
    ensures b <==> item.dropdown.Some?
    ensures b ==> |Buttons(item.dropdown.value.sections)| == LinkCount(item.dropdown.value.sections)
  {
    ButtonsInOrder(if item.dropdown.Some? then item.dropdown.value.sections else []);
    item.dropdown.Some?
  }

  /** Width of the section grid: three columns for more than five sections. */
  function GridColumns(d: Dropdown): (n: nat)
    ensures n == 2 || n == 3
    ensures n == 3 <==> |d.sections| > 5
  {
    if |d.sections| > 5 then 3 else 2
  }

  /** The leaf buttons of one section, each carrying that section's category. */
  function LinkButtons(s: Section): (r: seq<Pick>)
    ensures |r| == |s.links|
    ensures forall j :: 0 <= j < |s.links| ==> r[j] == Pick(s.links[j], s.category)
  {
    seq(|s.links|, j requires 0 <= j < |s.links| => Pick(s.links[j], s.category))
  }

  /** Every leaf button of the panel, section by section in rendering order. */
  function Buttons(sections: seq<Section>): (r: seq<Pick>)
    ensures forall p :: p in r <==>
              exists i :: 0 <= i < |sections| && p.category == sections[i].category
                          && p.funcName in sections[i].links
  {
    if |sections| == 0 then []
    else
      var rest := Buttons(sections[1..]);
      assert forall i :: 1 <= i < |sections| ==> sections[i] == sections[1..][i - 1];
      LinkButtons(sections[0]) + rest
  }

  /** Number of leaf buttons. */
  function LinkCount(sections: seq<Section>): nat {
    if |sections| == 0 then 0 else |sections[0].links| + LinkCount(sections[1..])
  }

  /** There is one button per link, and the first section's buttons come first,
      in link order. */
  lemma {:induction false} ButtonsInOrder(sections: seq<Section>)
    ensures |Buttons(sections)| == LinkCount(sections)
    ensures |sections| > 0 ==> Buttons(sections)[..|sections[0].links|] == LinkButtons(sections[0])
  {
    if |sections| > 0 {
      ButtonsInOrder(sections[1..]);
    }
  }

  /** A click forwards the clicked link with its own section's category, or
      nothing when the panel was given no callback. */
  function Clicked(d: Dropdown, si: nat, li: nat, hasCallback: bool): (r: Option<Pick>)
    requires si < |d.sections| && li < |d.sections[si].links|
    ensures r.Some? <==> hasCallback
    ensures r.Some? ==> r.value in Buttons(d.sections)
    ensures r.Some? ==> r.value.category == d.sections[si].category && r.value.funcName == d.sections[si].links[li]
  {
    if hasCallback then Some(Pick(d.sections[si].links[li], d.sections[si].category)) else None
  }

  /** Of the panels the header renders with this component, only Services has
      more than five sections and gets three columns. */
  lemma StandardGridWidths()
    ensures GridColumns(ServicesItem.dropdown.value) == 3
    ensures GridColumns(AboutItem.dropdown.value) == 2
    ensures GridColumns(InsightsItem.dropdown.value) == 2
    ensures GridColumns(CareersItem.dropdown.value) == 2
  {
  }
}
