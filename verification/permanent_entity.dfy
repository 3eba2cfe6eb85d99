/** An entity that is simulated permanently (such as the player): it holds
    a subscription to the entity cache over the window of its activation
    range around its column, taken on Initialize, dropped on Unload, and
    moved along whenever its position crosses into another column. */
module Permanent {
  import opened Wrappers
  import opened Geometry
  import opened Ledger
  import opened Entities
  import opened Controls
  import opened Cache

  /** The services an entity receives on Initialize: the entity cache, the
      planet lookup and the definition manager. */
  class ResourceManager {
    const entityCache: EntityCache
    const getPlanet: int -> Planet
    const definitions: DefinitionManager

    constructor(entityCache: EntityCache, getPlanet: int -> Planet, definitions: DefinitionManager)
      ensures this.entityCache == entityCache && this.getPlanet == getPlanet && this.definitions == definitions
    {
      this.entityCache := entityCache;
      this.getPlanet := getPlanet;
      this.definitions := definitions;
    }
  }

  class PermanentEntity {
    const activationRange: int
    /** The controllable entity this one extends. */
    const controls: ControllableEntity
    /** Set by Initialize; null before. */
    var resources: ResourceManager?
    /** The planet looked up by Initialize; None before. */
    var planet: Option<Planet>

    constructor(activationRange: int)
      ensures this.activationRange == activationRange
      ensures fresh(controls) && fresh(controls.entity) && controls.Valid()
      ensures controls.entity.position == Coordinate(0, Index3(0, 0, 0), Index3(0, 0, 0))
      ensures controls.inventory == [] && controls.activeTool == null
      ensures resources == null && planet.None?
    {
      this.activationRange := activationRange;
      controls := new ControllableEntity();
      resources := null;
      planet := Option.None;
    }

    /** The objects the entity's calls into the cache may change. */
    function CacheFrame(): set<object>
      reads this
    {
      if resources == null then {} else {resources.entityCache}
    }

    /** Once initialised, a planet is known and the cache is consistent. */
    ghost predicate Valid()
      reads this, resources, CacheFrame()
    {
      resources != null ==> planet.Some? && resources.entityCache.Valid()
    }

    /** The subscription the entity holds at its current position. */
    function Current(): (s: Subscription)
      requires planet.Some?
      reads this, controls.entity
      ensures s.planet == planet.value && s.range == activationRange
      ensures s.center == ChunkXY(controls.entity.position)
    {
      Subscription(planet.value, ChunkXY(controls.entity.position), activationRange)
    }

    /** Initialize: remember the services and the planet of the current
        position, then subscribe the window around the current column. */
    method Initialize(rm: ResourceManager)
      requires rm.entityCache.Valid()
      modifies this, rm.entityCache
      ensures Valid() && resources == rm
      ensures planet == Some(rm.getPlanet(controls.entity.position.planet))
      ensures rm.entityCache.references == SubscribeAll(old(rm.entityCache.references), Visits(Current()))
      ensures rm.entityCache.entities == old(rm.entityCache.entities) && rm.entityCache.job == old(rm.entityCache.job)
    {
      resources := rm;
      planet := Some(rm.getPlanet(controls.entity.position.planet));
      rm.entityCache.Subscribe(planet.value, ChunkXY(controls.entity.position), activationRange);
    }

    /** Unload: unsubscribe the window around the current column on the
        planet remembered by Initialize. Before Initialize there is no
        cache to call, and the call fails. */
    method Unload() returns (ok: bool)
      requires Valid()
      modifies CacheFrame()
      ensures Valid()
      ensures old(resources) == null ==> !ok
      ensures resources != null ==>
        var u := UnsubscribeAll(old(resources.entityCache.references), Visits(Current()));
        ok == u.ok && resources.entityCache.references == u.refs
    {
      if resources == null {
        return false;
      }
      ok := resources.entityCache.Unsubscribe(planet.value, ChunkXY(controls.entity.position), activationRange);
    }

    /** The subscription the entity holds once initialised: the window
        around its column on the planet of its position, which is the planet
        Initialize and every later column change subscribed on. */
    function Held(): (s: Subscription)
      requires resources != null
      reads this, controls.entity
      ensures s.planet == resources.getPlanet(controls.entity.position.planet)
      ensures s.range == activationRange
      ensures s.center == ChunkXY(controls.entity.position)
    {
      Subscription(resources.getPlanet(controls.entity.position.planet), ChunkXY(controls.entity.position), activationRange)
    }

    /** Unload as evidently intended: unsubscribe the window the entity
        holds, on the planet of its position rather than the one remembered
        by Initialize (see StaleUnloadLeaks). */
    method UnloadHeld() returns (ok: bool)
      requires Valid()
      modifies CacheFrame()
      ensures Valid()
      ensures old(resources) == null ==> !ok
      ensures resources != null ==>
        var u := UnsubscribeAll(old(resources.entityCache.references), Visits(Held()));
        ok == u.ok && resources.entityCache.references == u.refs
    {
      if resources == null {
        return false;
      }
      var p := resources.getPlanet(controls.entity.position.planet);
      ok := resources.entityCache.Unsubscribe(p, ChunkXY(controls.entity.position), activationRange);
    }

    /** The column-change hook: unsubscribe the old column's window, then
        subscribe the new column's, each on its own planet. */
    method OnColumnChanged(oldColumn: PlanetIndex2, newColumn: PlanetIndex2) returns (ok: bool)
      requires Valid()
      modifies CacheFrame()
      ensures Valid()
      ensures old(resources) == null ==> !ok
      ensures resources != null ==>
        var from := Subscription(resources.getPlanet(oldColumn.planet), oldColumn.column, activationRange);
        var to := Subscription(resources.getPlanet(newColumn.planet), newColumn.column, activationRange);
        var r := Move(old(resources.entityCache.references), from, to);
        ok == r.ok && resources.entityCache.references == r.refs
    {
      if resources == null {
        return false;
      }
      var oldPlanet := resources.getPlanet(oldColumn.planet);
      var newPlanet := if oldColumn.planet != newColumn.planet then resources.getPlanet(newColumn.planet) else oldPlanet;
      ok := resources.entityCache.Unsubscribe(oldPlanet, oldColumn.column, activationRange);
      if !ok {
        return;
      }
      resources.entityCache.Subscribe(newPlanet, newColumn.column, activationRange);
    }

    /** The Position setter with this entity's hook: a move into another
        column first moves the subscription; the new position is stored
        only if that completed. */
    method SetPosition(value: Coordinate) returns (ok: bool)
      requires Valid()
      modifies controls.entity, CacheFrame()
      ensures Valid()
      ensures var move := ColumnChange(old(controls.entity.position), value);
        && (move.None? ==> ok && (resources != null ==> resources.entityCache.references == old(resources.entityCache.references)))
        && (move.Some? && old(resources) == null ==> !ok)
        && (move.Some? && resources != null ==>
              var from := Subscription(resources.getPlanet(move.value.oldColumn.planet), move.value.oldColumn.column, activationRange);
              var to := Subscription(resources.getPlanet(move.value.newColumn.planet), move.value.newColumn.column, activationRange);
              var r := Move(old(resources.entityCache.references), from, to);
              ok == r.ok && resources.entityCache.references == r.refs)
      ensures controls.entity.position == if ok then value else old(controls.entity.position)
      ensures controls.entity.positionComponent == old(controls.entity.positionComponent)
    {
      var move := ColumnChange(controls.entity.position, value);
      ok := true;
      if move.Some? {
        ok := OnColumnChanged(move.value.oldColumn, move.value.newColumn);
        if !ok {
          return;
        }
      }
      controls.entity.position := value;
    }
  }
  /** An entity of the given range is initialised on planet p at column c
      and then moves to column c2 on another planet q. The move completes
      and leaves the window on q as the one live subscription. Unload as
      written unsubscribes the window at c2 on the remembered planet p: it
      fails at its first column and releases nothing, so the window on q
      stays subscribed. Unsubscribing the window held on q, as UnloadHeld
      does, completes and leaves the ledger empty. */
  lemma StaleUnloadLeaks(p: Planet, q: Planet, c: Index2, c2: Index2, range: int)
    requires p.id != q.id && range >= -1
    ensures var first, held := Subscription(p, c, range), Subscription(q, c2, range);
      var mv := Move(SubscribeAll(map[], Visits(first)), first, held);
      && mv == Unsubscribed(SubscribeAll(map[], Visits(held)), true)
      && Balanced(mv.refs, [held])
      && Visits(held)[0].key in mv.refs
      && UnsubscribeAll(mv.refs, Visits(Subscription(p, c2, range))) == Unsubscribed(mv.refs, false)
      && UnsubscribeAll(mv.refs, Visits(held)) == Unsubscribed(map[], true)
  {
    var first, held, stale := Subscription(p, c, range), Subscription(q, c2, range), Subscription(p, c2, range);
    var m := SubscribeAll(map[], Visits(held));
    SubscribeRoundTrip(map[], Visits(first));
    SubscribeRoundTrip(map[], Visits(held));
    EmptyBalanced();
    SubscribeKeepsBalance(map[], [], held);
    VisitsLength(held);
    SoftHitsPositive(Visits(held), 0);
    SubscribeAllAt(map[], Visits(held), Visits(held)[0].key);
    VisitsLength(stale);
    VisitsShape(stale);
    forall i | 0 <= i < |Visits(stale)| ensures Visits(stale)[i].key !in m {
      SubscribeOnEmptyPlanet(held, Visits(stale)[i].key);
    }
    UnsubscribeAllMissing(m, Visits(stale));
  }
}
