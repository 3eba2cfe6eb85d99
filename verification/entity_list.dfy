/** The entities of one chunk column: a mutable list with the collection
    operations, and the report of entities whose chunk no longer matches
    the column. */
module EntityLists {
  import opened Wrappers
  import opened Geometry
  import opened Lists
  import opened Entities

  /** The part of IChunkColumn the list uses: the column's planet and index. */
  datatype ChunkColumn = ChunkColumn(planet: int, index: Index2)

  /** FailEntityChunkArgs: an entity found in the wrong column, where it is
      listed and where its position says it belongs. */
  datatype FailEntityChunkArgs = FailEntityChunkArgs(
    entity: Entity, currentChunk: Index2, currentPlanet: int, targetChunk: Index2, targetPlanet: int)

  /** The entity has a position component whose chunk X or Y differs from
      the column's index (the planet is not compared). */
  predicate Misplaced(e: Entity, column: ChunkColumn)
    reads e
  {
    e.positionComponent.Some? && ChunkXY(e.positionComponent.value) != column.index
  }

  /** FailChunkEntity over a list of entities: one record per misplaced
      entity, in list order; entities without a position component are
      skipped. */
  function FailChunks(es: seq<Entity>, column: ChunkColumn): (r: seq<FailEntityChunkArgs>)
    reads es
    ensures |r| <= |es|
    ensures forall a | a in r ::
      && a.entity in es && Misplaced(a.entity, column)
      && a.currentChunk == column.index && a.currentPlanet == column.planet
      && a.targetChunk == ChunkXY(a.entity.positionComponent.value)
      && a.targetPlanet == a.entity.positionComponent.value.planet
  {
    if es == [] then []
    else
      var e := es[|es| - 1];
      var rest := FailChunks(es[..|es| - 1], column);
      if e.positionComponent.None? then rest
      else
        var position := e.positionComponent.value;
        if position.chunkIndex.x != column.index.x || position.chunkIndex.y != column.index.y then
          rest + [FailEntityChunkArgs(e, column.index, column.planet, ChunkXY(position), position.planet)]
        else rest
  }

  /** The entities of the report. */
  function Reported(r: seq<FailEntityChunkArgs>): (es: seq<Entity>)
    ensures |es| == |r| && forall i | 0 <= i < |r| :: es[i] == r[i].entity
  {
    if r == [] then [] else Reported(r[..|r| - 1]) + [r[|r| - 1].entity]
  }

  /** Every misplaced entity of the list is reported. */
  lemma {:induction false} FailChunksComplete(es: seq<Entity>, column: ChunkColumn, e: Entity)
    requires e in es && Misplaced(e, column)
    ensures e in Reported(FailChunks(es, column))
  {
    var pre, last := es[..|es| - 1], es[|es| - 1];
    var r := FailChunks(es, column);
    if e == last {
      assert r[|r| - 1].entity == e;
    } else {
      assert e in pre by {
        assert es == pre + [last];
      }
      FailChunksComplete(pre, column, e);
      var rp := FailChunks(pre, column);
      var j :| 0 <= j < |rp| && Reported(rp)[j] == e;
      assert r[..|rp|] == rp;
      assert r[j] == rp[j];
    }
  }

  /** The report keeps list order: the report of a concatenation is the
      concatenation of the reports. */
  lemma {:induction false} FailChunksAppend(a: seq<Entity>, b: seq<Entity>, column: ChunkColumn)
    ensures FailChunks(a + b, column) == FailChunks(a, column) + FailChunks(b, column)
    decreases |b|
  {
    if b == [] {
      assert a + b == a;
    } else {
      assert (a + b)[..|a + b| - 1] == a + b[..|b| - 1];
      assert (a + b)[|a + b| - 1] == b[|b| - 1];
      FailChunksAppend(a, b[..|b| - 1], column);
    }
  }

  class EntityList {
    var entities: seq<Entity>
    const column: ChunkColumn

    constructor(column: ChunkColumn)
      ensures entities == [] && this.column == column
    {
      entities := [];
      this.column := column;
    }

    function Count(): (n: nat)
      reads this
      ensures n == |entities|
    {
      |entities|
    }

    /** The list can always be written to. */
    function IsReadOnly(): (r: bool)
      ensures !r
    {
      false
    }

    function Contains(item: Entity): (r: bool)
      reads this
      ensures r <==> item in entities
    {
      item in entities
    }

    method Add(item: Entity)
      modifies this
      ensures entities == old(entities) + [item]
      ensures Count() == old(Count()) + 1 && Contains(item)
    {
      entities := entities + [item];
    }

    method Clear()
      modifies this
      ensures entities == [] && Count() == 0
    {
      entities := [];
    }

    /** Removes the first occurrence of item, keeping the others in order;
        says whether there was one. */
    method Remove(item: Entity) returns (removed: bool)
      modifies this
      ensures removed <==> item in old(entities)
      ensures entities == RemoveFirst(old(entities), item)
      ensures removed ==> Count() == old(Count()) - 1
      ensures !removed ==> entities == old(entities)
    {
      removed := item in entities;
      entities := RemoveFirst(entities, item);
    }

    /** FailChunkEntity. */
    function FailChunkEntity(): (r: seq<FailEntityChunkArgs>)
      reads this, entities
      ensures r == FailChunks(entities, column)
    {
      FailChunks(entities, column)
    }
  }
}
