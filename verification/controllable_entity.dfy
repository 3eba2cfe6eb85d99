/** A steerable entity: input latches set by Jump, Interact and Apply, an
    inventory of slots with an active tool, and the block-interaction part
    of the per-frame update that consumes the latches. */
module Controls {
  import opened Wrappers
  import opened Geometry
  import opened Lists
  import opened Entities
  import opened Inventories

  /** A 16-bit block id; 0 is "no block". */
  newtype Ushort = b: int | 0 <= b < 0x1_0000

  /** The orientation an Apply aims at: none, one of the six sides, or any
      other flag combination (edges and corners), as a raw flag value. */
  datatype OrientationFlags =
    | None
    | SideWest | SideEast | SideSouth | SideNorth | SideBottom | SideTop
    | Combined(flags: int)

  predicate IsSide(o: OrientationFlags) {
    !o.None? && !o.Combined?
  }

  function Abs(v: int): nat {
    if v < 0 then -v else v
  }

  /** The offset from the aimed-at block to the block placed against it:
      one step out of the named side, no offset otherwise. */
  function Offset(o: OrientationFlags): (r: Index3)
    ensures IsSide(o) <==> r != Index3(0, 0, 0)
    ensures IsSide(o) ==> Abs(r.x) + Abs(r.y) + Abs(r.z) == 1
    ensures o == SideWest ==> r == Index3(-1, 0, 0)
    ensures o == SideEast ==> r == Index3(1, 0, 0)
    ensures o == SideSouth ==> r == Index3(0, -1, 0)
    ensures o == SideNorth ==> r == Index3(0, 1, 0)
    ensures o == SideBottom ==> r == Index3(0, 0, -1)
    ensures o == SideTop ==> r == Index3(0, 0, 1)
  {
    match o
    case SideWest => Index3(-1, 0, 0)
    case SideEast => Index3(1, 0, 0)
    case SideSouth => Index3(0, -1, 0)
    case SideNorth => Index3(0, 1, 0)
    case SideBottom => Index3(0, 0, -1)
    case SideTop => Index3(0, 0, 1)
    case _ => Index3(0, 0, 0)
  }

  /** Different sides place against different neighbours. */
  lemma OffsetInjective(a: OrientationFlags, b: OrientationFlags)
    requires IsSide(a) && IsSide(b) && a != b
    ensures Offset(a) != Offset(b)
  {
  }

  /** The blocks seen through the local chunk cache: an absent index reads
      as 0. */
  class LocalChunkCache {
    var blocks: map<Index3, Ushort>

    constructor(blocks: map<Index3, Ushort>)
      ensures this.blocks == blocks
    {
      this.blocks := blocks;
    }

    function GetBlock(index: Index3): (b: Ushort)
      reads this
      ensures index in blocks ==> b == blocks[index]
      ensures index !in blocks ==> b == 0
    {
      if index in blocks then blocks[index] else 0
    }

    method SetBlock(index: Index3, b: Ushort)
      modifies this
      ensures blocks == old(blocks)[index := b]
      ensures GetBlock(index) == b
    {
      blocks := blocks[index := b];
    }
  }

  /** The definition manager's block lookups: id to definition, definition
      to id, and the list of all block definitions. */
  datatype DefinitionManager = DefinitionManager(
    blockByIndex: Ushort -> ItemDefinition,
    blockIndex: ItemDefinition -> Ushort,
    blockDefinitions: seq<ItemDefinition>)

  class ControllableEntity {
    /** The entity this one extends: its position. */
    const entity: Entity
    var lastJump: bool
    var lastInteract: Option<Index3>
    var lastApply: Option<Index3>
    var lastOrientation: OrientationFlags
    var flyMode: bool
    var activeTool: InventorySlot?
    var inventory: seq<InventorySlot>

    /** No slot object is listed twice. */
    predicate Valid()
      reads this
    {
      Distinct(inventory)
    }

    constructor()
      ensures Valid()
      ensures fresh(entity) && entity.position == Coordinate(0, Index3(0, 0, 0), Index3(0, 0, 0))
      ensures entity.positionComponent.None?
      ensures !lastJump && lastInteract.None? && lastApply.None? && lastOrientation.None?
      ensures inventory == [] && activeTool == null && !flyMode
    {
      entity := new Entity(Coordinate(0, Index3(0, 0, 0), Index3(0, 0, 0)), Option.None);
      lastJump := false;
      lastInteract := Option.None;
      lastApply := Option.None;
      lastOrientation := OrientationFlags.None;
      inventory := [];
      activeTool := null;
      flyMode := false;
    }

    method Jump()
      modifies this
      ensures lastJump
      ensures lastInteract == old(lastInteract) && lastApply == old(lastApply) && lastOrientation == old(lastOrientation)
      ensures inventory == old(inventory) && activeTool == old(activeTool) && flyMode == old(flyMode)
    {
      lastJump := true;
    }

    method Interact(blockIndex: Index3)
      modifies this
      ensures lastInteract == Some(blockIndex)
      ensures lastJump == old(lastJump) && lastApply == old(lastApply) && lastOrientation == old(lastOrientation)
      ensures inventory == old(inventory) && activeTool == old(activeTool) && flyMode == old(flyMode)
    {
      lastInteract := Some(blockIndex);
    }

    method Apply(blockIndex: Index3, orientation: OrientationFlags)
      modifies this
      ensures lastApply == Some(blockIndex) && lastOrientation == orientation
      ensures lastJump == old(lastJump) && lastInteract == old(lastInteract)
      ensures inventory == old(inventory) && activeTool == old(activeTool) && flyMode == old(flyMode)
    {
      lastApply := Some(blockIndex);
      lastOrientation := orientation;
    }

    /** One unit of d into the inventory: the first slot of d below its stack
        limit, or a new slot appended at the end. */
    method PickUpUnit(d: ItemDefinition)
      requires Valid()
      modifies this, inventory
      ensures Valid()
      ensures View(inventory) == PickUp(old(View(inventory)), d)
      ensures |old(inventory)| <= |inventory| <= |old(inventory)| + 1
      ensures inventory[..|old(inventory)|] == old(inventory)
      ensures forall s | s in inventory && s !in old(inventory) :: fresh(s)
      ensures lastJump == old(lastJump) && lastInteract == old(lastInteract)
      ensures lastApply == old(lastApply) && lastOrientation == old(lastOrientation)
      ensures activeTool == old(activeTool) && flyMode == old(flyMode)
    {
      ghost var before := View(inventory);
      var i := FirstFit(View(inventory), d);
      var slot: InventorySlot;
      if i < 0 || inventory[i].amount >= d.stackLimit {
        slot := new InventorySlot(d, 0);
        inventory := inventory + [slot];
      } else {
        slot := inventory[i];
      }
      slot.amount := slot.amount + 1;
      assert View(inventory) == PickUp(before, d);
    }

    /** The Interact half of the block interaction: the latched block is
        taken and the latch is cleared. */
    method InteractStep(cache: LocalChunkCache, definitions: DefinitionManager)
      requires Valid()
      modifies this, inventory, cache
      ensures Valid() && lastInteract.None?
      ensures old(lastInteract).None? ==>
        cache.blocks == old(cache.blocks) && inventory == old(inventory) && View(inventory) == old(View(inventory))
      ensures old(lastInteract).Some? ==>
        var index := old(lastInteract).value;
        var b := old(cache.GetBlock(index));
        && cache.blocks == old(cache.blocks)[index := 0]
        && View(inventory) == (if b != 0 then PickUp(old(View(inventory)), definitions.blockByIndex(b)) else old(View(inventory)))
      ensures lastJump == old(lastJump) && lastApply == old(lastApply) && lastOrientation == old(lastOrientation)
      ensures activeTool == old(activeTool) && flyMode == old(flyMode)
      ensures forall s | s in inventory && s !in old(inventory) :: fresh(s)
    {
      if lastInteract.Some? {
        TakeBlock(cache, definitions, lastInteract.value);
        lastInteract := Option.None;
      }
    }

    /** The block at index is cleared and, when it held a block, one unit of
        that block's definition is picked up. */
    method TakeBlock(cache: LocalChunkCache, definitions: DefinitionManager, index: Index3)
      requires Valid()
      modifies this, inventory, cache
      ensures Valid()
      ensures cache.blocks == old(cache.blocks)[index := 0]
      ensures var b := old(cache.GetBlock(index));
        View(inventory) == (if b != 0 then PickUp(old(View(inventory)), definitions.blockByIndex(b)) else old(View(inventory)))
      ensures old(cache.GetBlock(index)) == 0 ==> inventory == old(inventory)
      ensures lastJump == old(lastJump) && lastInteract == old(lastInteract)
      ensures lastApply == old(lastApply) && lastOrientation == old(lastOrientation)
      ensures activeTool == old(activeTool) && flyMode == old(flyMode)
      ensures forall s | s in inventory && s !in old(inventory) :: fresh(s)
    {
      ghost var before := View(inventory);
      var lastBlock := cache.GetBlock(index);
      cache.SetBlock(index, 0);
      assert View(inventory) == before;
      if lastBlock != 0 {
        PickUpUnit(definitions.blockByIndex(lastBlock));
      }
    }

    /** The Apply half of the block interaction: with an active tool whose
        definition is a block, that block is placed against the latched block
        on the latched side and the tool loses one unit; an emptied tool
        leaves the inventory and stops being active. The latch is then
        cleared. */
    method ApplyStep(cache: LocalChunkCache, definitions: DefinitionManager)
      requires Valid()
      modifies this, cache, activeTool
      ensures Valid() && lastApply.None?
      ensures var tool := old(activeTool);
        !(old(lastApply).Some? && tool != null && old(tool.definition).isBlock) ==>
          && cache.blocks == old(cache.blocks) && inventory == old(inventory) && activeTool == tool
          && (tool != null ==> tool.amount == old(tool.amount) && tool.definition == old(tool.definition))
          && View(inventory) == old(View(inventory))
      ensures var tool := old(activeTool);
        old(lastApply).Some? && tool != null && old(tool.definition).isBlock ==>
          && cache.blocks == old(cache.blocks)[old(lastApply).value.Plus(Offset(old(lastOrientation))) := definitions.blockIndex(old(tool.definition))]
          && tool.amount == old(tool.amount) - 1 && tool.definition == old(tool.definition)
          && (tool.amount <= 0 ==> inventory == RemoveFirst(old(inventory), tool) && activeTool == null)
          && (0 < tool.amount ==> inventory == old(inventory) && activeTool == tool)
      ensures forall s | s in inventory :: s in old(inventory)
      ensures lastJump == old(lastJump) && lastInteract == old(lastInteract) && lastOrientation == old(lastOrientation)
      ensures flyMode == old(flyMode)
    {
      if lastApply.Some? {
        if activeTool != null && activeTool.definition.isBlock {
          PlaceBlock(cache, definitions, lastApply.value);
        }
        lastApply := Option.None;
      }
    }

    /** The active tool's block placed against the block at index on the
        latched side; the tool loses one unit and, once empty, leaves the
        inventory and stops being active. */
    method PlaceBlock(cache: LocalChunkCache, definitions: DefinitionManager, index: Index3)
      requires Valid() && activeTool != null && activeTool.definition.isBlock
      modifies this, cache, activeTool
      ensures Valid()
      ensures var tool := old(activeTool);
        && cache.blocks == old(cache.blocks)[index.Plus(Offset(lastOrientation)) := definitions.blockIndex(old(tool.definition))]
        && tool.amount == old(tool.amount) - 1 && tool.definition == old(tool.definition)
        && (tool.amount <= 0 ==> inventory == RemoveFirst(old(inventory), tool) && activeTool == null)
        && (0 < tool.amount ==> inventory == old(inventory) && activeTool == tool)
      ensures forall s | s in inventory :: s in old(inventory)
      ensures lastJump == old(lastJump) && lastInteract == old(lastInteract)
      ensures lastApply == old(lastApply) && lastOrientation == old(lastOrientation)
      ensures flyMode == old(flyMode)
    {
      var add := Offset(lastOrientation);
      var definition := activeTool.definition;
      cache.SetBlock(index.Plus(add), definitions.blockIndex(definition));
      activeTool.amount := activeTool.amount - 1;
      if activeTool.amount <= 0 {
        RemoveFirstKeepsDistinct(inventory, activeTool);
        inventory := RemoveFirst(inventory, activeTool);
        activeTool := null;
      }
    }

    /** The block-interaction part of Update: the jump latch is consumed by
        the physics step, then the Interact and Apply latches are served in
        that order. */
    method Update(cache: LocalChunkCache, definitions: DefinitionManager)
      requires Valid()
      modifies this, inventory, cache, activeTool
      ensures Valid()
      ensures !lastJump && lastInteract.None? && lastApply.None?
      ensures old(lastInteract).None? && old(lastApply).None? ==>
        cache.blocks == old(cache.blocks) && inventory == old(inventory) && View(inventory) == old(View(inventory))
      ensures lastOrientation == old(lastOrientation) && flyMode == old(flyMode)
    {
      lastJump := false;
      ghost var blocks, slots, view := cache.blocks, inventory, View(inventory);
      InteractStep(cache, definitions);
      assert old(lastInteract).None? ==> cache.blocks == blocks && inventory == slots && View(inventory) == view;
      ApplyStep(cache, definitions);
    }
  }
}
