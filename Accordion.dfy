/** The capability accordion of the Airports industry page: one optional open
    index shared by all items, so opening one item closes the others. */
module Accordion {
  import opened NavData

  datatype Capability = Capability(title: string, desc: string)

  /** The four capabilities listed on the page, in order. */
  const Capabilities: seq<Capability> := [
    Capability("Smart Terminal Ops",
      "Automating the passenger journey with biometrics, AI-driven flow prediction, and unified cloud-native command centers. We eliminate friction to maximize terminal velocity."),
    Capability("Autonomous Airside",
      "Deploying private 5G networks and edge computing to orchestrate autonomous ground support, baggage robotics, and precision tarmac logistics."),
    Capability("Sustainable Infrastructure",
      "Engineering the net-zero airport. We integrate renewable microgrids, hydrogen logistics, and smart energy management into the existing facility core."),
    Capability("Asset Intelligence",
      "A full digital twin of your airport infrastructure, providing sub-second visibility into every system, from HVAC to runway lighting.")
  ]

  /** Item `index` is expanded, showing its description and buttons. */
  predicate IsOpen(active: Option<nat>, index: nat): (b: bool)
    ensures active.None? ==> !b
    ensures b ==> forall j: nat :: j != index ==> active != Some(j)
  {
    active == Some(index)
  }

  /** The click rule of an item: `isOpen ? null : index`. */
  function Toggle(active: Option<nat>, index: nat): (r: Option<nat>)
    ensures IsOpen(active, index) ==> !IsOpen(r, index) && r == None
    ensures !IsOpen(active, index) ==> IsOpen(r, index)
    ensures forall j: nat :: j != index ==> !IsOpen(r, j)
  {
    if IsOpen(active, index) then None else Some(index)
  }

  /** Clicking the same item twice restores the state exactly when the item
      was open or nothing was open; with another item open, that item stays
      closed after the second click. */
  lemma ToggleTwice(active: Option<nat>, index: nat)
    ensures Toggle(Toggle(active, index), index) == active <==> active == None || active == Some(index)
    ensures active.Some? && active != Some(index) ==> Toggle(Toggle(active, index), index) == None
  {
  }

  /** The items drawn expanded: never more than one. */
  function OpenItems(active: Option<nat>, count: nat): (r: set<nat>)
    ensures forall j: nat :: j in r <==> j < count && IsOpen(active, j)
    ensures |r| <= 1
  {
    if active.Some? && active.value < count then {active.value} else {}
  }

  class CapabilityAccordion {
    /** `activeIndex`; `None` is the source's `null`. */
    var activeIndex: Option<nat>

    /** The page opens with the first capability expanded. */
    constructor()
      ensures activeIndex == Some(0)
      ensures OpenItems(activeIndex, |Capabilities|) == {0}
    {
      activeIndex := Some(0);
    }

    /** A click on the header of item `index`. */
    method Click(index: nat)
      requires index < |Capabilities|
      modifies this
      ensures activeIndex == Toggle(old(activeIndex), index)
      ensures IsOpen(old(activeIndex), index) ==> OpenItems(activeIndex, |Capabilities|) == {}
      ensures !IsOpen(old(activeIndex), index) ==> OpenItems(activeIndex, |Capabilities|) == {index}
    {
      var isOpen := activeIndex == Some(index);
      activeIndex := if isOpen then None else Some(index);
    }
  }
}
