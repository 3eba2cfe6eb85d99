/** Item definitions, inventory slots, and the pick-up rule shared by block
    interaction and the debug fill: one unit goes into the first slot of the
    same definition that is below its stack limit, or into a new slot
    appended at the end. */
module Inventories {

  /** An item definition: its name, its stack limit, and whether it is a
      block definition (IBlockDefinition). */
  datatype ItemDefinition = ItemDefinition(name: string, stackLimit: int, isBlock: bool)

  class InventorySlot {
    var definition: ItemDefinition
    var amount: int

    constructor(definition: ItemDefinition, amount: int)
      ensures this.definition == definition && this.amount == amount
    {
      this.definition := definition;
      this.amount := amount;
    }
  }

  /** What a slot holds, as a value. */
  datatype Stack = Stack(definition: ItemDefinition, amount: int)

  /** The contents of a list of slots, slot by slot. */
  function View(slots: seq<InventorySlot>): (r: seq<Stack>)
    reads slots
    ensures |r| == |slots|
    ensures forall i | 0 <= i < |slots| :: r[i] == Stack(slots[i].definition, slots[i].amount)
  {
    seq(|slots|, i requires 0 <= i < |slots| reads slots => Stack(slots[i].definition, slots[i].amount))
  }

  /** A stack that can take one more unit of d. */
  predicate Fits(s: Stack, d: ItemDefinition) {
    s.definition == d && s.amount < d.stackLimit
  }

  /** The slot the pick-up chooses: the first one that fits, or -1. */
  function FirstFit(view: seq<Stack>, d: ItemDefinition): (r: int)
    ensures -1 <= r < |view|
    ensures 0 <= r ==> Fits(view[r], d)
    ensures forall j | 0 <= j < |view| && (r < 0 || j < r) :: !Fits(view[j], d)
  {
    if view == [] then -1
    else if Fits(view[0], d) then 0
    else
      var r := FirstFit(view[1..], d);
      assert forall j | 1 <= j < |view| :: view[j] == view[1..][j - 1];
      if r < 0 then -1 else r + 1
  }

  /** One unit of d picked up. */
  function PickUp(view: seq<Stack>, d: ItemDefinition): seq<Stack> {
    var i := FirstFit(view, d);
    if i < 0 then view + [Stack(d, 1)]
    else view[i := Stack(d, view[i].amount + 1)]
  }

  /** One unit of each definition picked up, in order. */
  function PickUpAll(view: seq<Stack>, defs: seq<ItemDefinition>): (r: seq<Stack>)
    ensures |view| <= |r| <= |view| + |defs|
  {
    if defs == [] then view
    else
      var p := PickUpAll(view, defs[..|defs| - 1]);
      PickUpShape(p, defs[|defs| - 1]);
      PickUp(p, defs[|defs| - 1])
  }

  /** The units of definition e held across all stacks. */
  function Units(view: seq<Stack>, e: ItemDefinition): int {
    if view == [] then 0
    else
      var last := view[|view| - 1];
      Units(view[..|view| - 1], e) + (if last.definition == e then last.amount else 0)
  }

  /** Every stack within its definition's stack limit. */
  predicate WithinLimits(view: seq<Stack>) {
    forall i | 0 <= i < |view| :: view[i].amount <= view[i].definition.stackLimit
  }

  /** A pick-up either tops up the first stack that fits, changing nothing
      else, or (only when no stack fits) appends a new stack of one unit. */
  lemma PickUpShape(view: seq<Stack>, d: ItemDefinition)
    ensures var r := PickUp(view, d);
      && |view| <= |r| <= |view| + 1
      && (forall j | 0 <= j < |view| && j != FirstFit(view, d) :: r[j] == view[j])
      && (|r| == |view| + 1 <==> forall j | 0 <= j < |view| :: !Fits(view[j], d))
      && (|r| == |view| + 1 ==> r[|view|] == Stack(d, 1))
      && (|r| == |view| ==> var i := FirstFit(view, d);
            r[i] == Stack(d, view[i].amount + 1) && Fits(view[i], d))
  {
  }

  /** Replacing one stack changes the units of e by the difference. */
  lemma {:induction false} UnitsUpdate(view: seq<Stack>, i: nat, s: Stack, e: ItemDefinition)
    requires i < |view|
    ensures Units(view[i := s], e) ==
      Units(view, e) - (if view[i].definition == e then view[i].amount else 0) + (if s.definition == e then s.amount else 0)
    decreases |view|
  {
    var n := |view| - 1;
    var v := view[i := s];
    assert v[..n] == if i == n then view[..n] else view[..n][i := s];
    if i < n {
      UnitsUpdate(view[..n], i, s, e);
    }
  }

  /** Picking up d adds exactly one unit of d and no unit of anything else. */
  lemma PickUpUnits(view: seq<Stack>, d: ItemDefinition, e: ItemDefinition)
    ensures Units(PickUp(view, d), e) == Units(view, e) + (if e == d then 1 else 0)
  {
    var i := FirstFit(view, d);
    if i < 0 {
      assert (view + [Stack(d, 1)])[..|view|] == view;
    } else {
      UnitsUpdate(view, i, Stack(d, view[i].amount + 1), e);
    }
  }

  /** With a positive stack limit for d, a pick-up keeps every stack within
      its limit. */
  lemma PickUpWithinLimits(view: seq<Stack>, d: ItemDefinition)
    requires WithinLimits(view) && 1 <= d.stackLimit
    ensures WithinLimits(PickUp(view, d))
  {
    PickUpShape(view, d);
  }

  /** Picking up each of defs adds, per definition, as many units as it
      occurs in defs. */
  lemma {:induction false} PickUpAllUnits(view: seq<Stack>, defs: seq<ItemDefinition>, e: ItemDefinition)
    ensures Units(PickUpAll(view, defs), e) == Units(view, e) + multiset(defs)[e]
    decreases |defs|
  {
    if defs != [] {
      var pre, d := defs[..|defs| - 1], defs[|defs| - 1];
      assert defs == pre + [d];
      PickUpAllUnits(view, pre, e);
      PickUpUnits(PickUpAll(view, pre), d, e);
    }
  }

  /** With positive stack limits, picking up each of defs keeps every stack
      within its limit. */
  lemma {:induction false} PickUpAllWithinLimits(view: seq<Stack>, defs: seq<ItemDefinition>)
    requires WithinLimits(view)
    requires forall d | d in defs :: 1 <= d.stackLimit
    ensures WithinLimits(PickUpAll(view, defs))
    decreases |defs|
  {
    if defs != [] {
      var pre, d := defs[..|defs| - 1], defs[|defs| - 1];
      assert forall x | x in pre :: x in defs;
      PickUpAllWithinLimits(view, pre);
      PickUpWithinLimits(PickUpAll(view, pre), d);
    }
  }

  /** Starting from an empty inventory, distinct definitions each get a
      stack of exactly one unit, in the order given. */
  lemma {:induction false} PickUpAllFresh(defs: seq<ItemDefinition>)
    requires forall i, j | 0 <= i < j < |defs| :: defs[i] != defs[j]
    ensures var r := PickUpAll([], defs);
      |r| == |defs| && forall i | 0 <= i < |defs| :: r[i] == Stack(defs[i], 1)
    decreases |defs|
  {
    if defs != [] {
      var pre, d := defs[..|defs| - 1], defs[|defs| - 1];
      PickUpAllFresh(pre);
      var p := PickUpAll([], pre);
      assert forall j | 0 <= j < |p| :: !Fits(p[j], d) by {
        forall j | 0 <= j < |p| ensures !Fits(p[j], d) {
          assert p[j].definition == defs[j];
        }
      }
      PickUpShape(p, d);
    }
  }
}
