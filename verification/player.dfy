/** The human player: a permanent entity with activation range 4, and the
    debug fill that puts one unit of every block definition into the
    inventory. */
module Players {
  import opened Geometry
  import opened Ledger
  import opened Inventories
  import opened Controls
  import opened Permanent

  /** The player's activation range. */
  const ACTIVATIONRANGE: int := 4

  /** The player's subscription window: 11 by 11 columns, of which the
      inner 9 by 9 are held hard. */
  lemma PlayerWindow(planet: Planet, center: Index2)
    ensures |Visits(Subscription(planet, center, ACTIVATIONRANGE))| == 121
    ensures HardCount(Visits(Subscription(planet, center, ACTIVATIONRANGE))) == 81
  {
    VisitsHardCount(Subscription(planet, center, ACTIVATIONRANGE));
  }

  class Player {
    /** The permanent entity this one extends. */
    const permanent: PermanentEntity

    constructor()
      ensures fresh(permanent) && permanent.activationRange == ACTIVATIONRANGE
      ensures fresh(permanent.controls) && permanent.controls.Valid()
      ensures permanent.controls.inventory == [] && permanent.controls.activeTool == null
      ensures permanent.resources == null
    {
      permanent := new PermanentEntity(ACTIVATIONRANGE);
    }

    /** AllBlocksDebug: one unit of each block definition, in the
        definition manager's order, picked up into the inventory. Before
        Initialize there is no definition manager, and the call fails. */
    method AllBlocksDebug() returns (ok: bool)
      requires permanent.controls.Valid()
      modifies permanent.controls, set s | s in permanent.controls.inventory
      ensures permanent.controls.Valid()
      ensures ok <==> permanent.resources != null
      ensures !ok ==> permanent.controls.inventory == old(permanent.controls.inventory)
      ensures ok ==>
        View(permanent.controls.inventory) ==
        PickUpAll(old(View(permanent.controls.inventory)), permanent.resources.definitions.blockDefinitions)
      ensures permanent.controls.activeTool == old(permanent.controls.activeTool)
    {
      if permanent.resources == null {
        return false;
      }
      var controls := permanent.controls;
      var blockDefinitions := permanent.resources.definitions.blockDefinitions;
      ghost var start := View(controls.inventory);
      var i := 0;
      while i < |blockDefinitions|
        invariant 0 <= i <= |blockDefinitions|
        invariant controls.Valid()
        invariant View(controls.inventory) == PickUpAll(start, blockDefinitions[..i])
        invariant forall s | s in controls.inventory :: s in old(controls.inventory) || fresh(s)
        invariant controls.activeTool == old(controls.activeTool)
      {
        controls.PickUpUnit(blockDefinitions[i]);
        assert blockDefinitions[..i + 1][..i] == blockDefinitions[..i];
        i := i + 1;
      }
      assert blockDefinitions[..i] == blockDefinitions;
      ok := true;
    }
  }
}
