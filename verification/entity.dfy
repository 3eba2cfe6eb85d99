/** The base entity: a position whose setter reports a change of column
    (planet or chunk X/Y) to the column-change hook before storing the new
    value. The base hook does nothing; PermanentEntity overrides it. */
module Entities {
  import opened Wrappers
  import opened Geometry

  /** A pair of columns handed to the column-change hook: (old, new). */
  datatype ColumnMove = ColumnMove(oldColumn: PlanetIndex2, newColumn: PlanetIndex2)

  /** The hook call the Position setter makes, if any, when an entity
      moves from one position to another. */
  function ColumnChange(from: Coordinate, to: Coordinate): (r: Option<ColumnMove>)
    ensures r.Some? <==> ColumnOf(from) != ColumnOf(to)
    ensures r.Some? ==> r.value.oldColumn == ColumnOf(from) && r.value.newColumn == ColumnOf(to)
  {
    if from.planet != to.planet || from.chunkIndex.x != to.chunkIndex.x || from.chunkIndex.y != to.chunkIndex.y then
      Some(ColumnMove(PlanetIndex2(from.planet, ChunkXY(from)), PlanetIndex2(to.planet, ChunkXY(to))))
    else None
  }

  /** A move confined to the chunk's Z or to the block within the chunk never
      reaches the hook. */
  lemma SameColumnNoHook(from: Coordinate, z: int, blockInChunk: Index3)
    ensures ColumnChange(from, from.(chunkIndex := from.chunkIndex.(z := z), blockInChunk := blockInChunk)).None?
  {
  }

  class Entity {
    /** Entity.Position. */
    var position: Coordinate
    /** The entity's PositionComponent, when it has one. */
    var positionComponent: Option<Coordinate>

    constructor(position: Coordinate, positionComponent: Option<Coordinate>)
      ensures this.position == position && this.positionComponent == positionComponent
    {
      this.position := position;
      this.positionComponent := positionComponent;
    }

    /** The Position setter with the base hook: it always stores the value and
        returns the hook call it made (which does nothing here). */
    method SetPosition(value: Coordinate) returns (hook: Option<ColumnMove>)
      modifies this
      ensures hook == ColumnChange(old(position), value)
      ensures position == value && positionComponent == old(positionComponent)
    {
      hook := ColumnChange(position, value);
      position := value;
    }
  }
}
