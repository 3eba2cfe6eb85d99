/** The entity cache: the subscription ledger, the list of loaded entities
    and the loader worker, with Subscribe and Unsubscribe as the nested
    loops they are and the loader loop as four atomic steps. Loaded entities
    come in as a parameter (the resource manager's LoadEntities); the
    entities handed to SaveEntities are returned. */
module Cache {
  import opened Wrappers
  import opened Geometry
  import opened Ledger
  import opened Loader
  import opened Entities

  /** The entities of the list whose position lies in the given column. */
  function EntitiesIn(es: seq<Entity>, key: PlanetIndex2): (r: seq<Entity>)
    reads es
    ensures |r| <= |es|
    ensures forall e | e in r :: e in es && ColumnOf(e.position) == key
    ensures forall e | e in es && ColumnOf(e.position) == key :: e in r
  {
    if es == [] then []
    else
      var e := es[|es| - 1];
      EntitiesIn(es[..|es| - 1], key)
        + (if e.position.planet == key.planet && e.position.chunkIndex.x == key.column.x
              && e.position.chunkIndex.y == key.column.y then [e] else [])
  }

  /** The save keeps list order and multiplicity: each entity of the column
      appears as often as in the list, any other entity not at all. */
  lemma {:induction false} EntitiesInCount(es: seq<Entity>, key: PlanetIndex2, e: Entity)
    requires e in es
    ensures multiset(EntitiesIn(es, key))[e] == if ColumnOf(e.position) == key then multiset(es)[e] else 0
  {
    var pre := es[..|es| - 1];
    assert es == pre + [es[|es| - 1]];
    if e in pre {
      EntitiesInCount(pre, key, e);
    } else {
      assert multiset(EntitiesIn(pre, key))[e] == 0;
    }
  }

  class EntityCache {
    /** The subscription ledger. */
    var references: References
    /** EntityCache.Entities: every entity loaded so far. */
    var entities: seq<Entity>
    /** The region the loader worker holds between a claim and its commit. */
    var job: Job

    ghost predicate Valid()
      reads this
    {
      WellKeyed(references) && WorkerConsistent(references, job)
    }

    constructor()
      ensures Valid()
      ensures references == map[] && entities == [] && job == Idle
    {
      references := map[];
      entities := [];
      job := Idle;
    }

    /** Takes one soft reference on every column of the square of side
        2r+3 around index, and one hard reference on the inner square. */
    method Subscribe(planet: Planet, index: Index2, activationRange: int)
      requires Valid()
      modifies this
      ensures Valid()
      ensures references == SubscribeAll(old(references), Visits(Subscription(planet, index, activationRange)))
      ensures entities == old(entities) && job == old(job)
    {
      ghost var s := Subscription(planet, index, activationRange);
      ghost var m := references;
      var lo, hi := -activationRange - SoftBorder, activationRange + SoftBorder;
      var x := lo;
      while x <= hi
        invariant x == lo || lo <= x <= hi + 1
        invariant Valid()
        invariant references == SubscribeAll(m, Rows(s, x))
        invariant entities == old(entities) && job == old(job)
      {
        SubscribeRow(planet, index, activationRange, x, m);
        x := x + 1;
      }
      assert Rows(s, x) == Visits(s);
    }

    /** The inner loop of Subscribe: the column of offsets (x, y) for every y. */
    method SubscribeRow(planet: Planet, index: Index2, activationRange: int, x: int, ghost m: References)
      requires Valid()
      requires -activationRange - SoftBorder <= x <= activationRange + SoftBorder
      requires references == SubscribeAll(m, Rows(Subscription(planet, index, activationRange), x))
      modifies this
      ensures Valid()
      ensures references == SubscribeAll(m, Rows(Subscription(planet, index, activationRange), x + 1))
      ensures entities == old(entities) && job == old(job)
    {
      ghost var s := Subscription(planet, index, activationRange);
      var lo, hi := -activationRange - SoftBorder, activationRange + SoftBorder;
      RowStep(s, x);
      var y := lo;
      while y <= hi
        invariant lo <= y <= hi + 1
        invariant Valid()
        invariant references == SubscribeAll(m, Rows(s, x) + Row(s, x, y))
        invariant entities == old(entities) && job == old(job)
      {
        ghost var v := VisitAt(s, x, y);
        SubscribeVisit(planet, index, activationRange, x, y);
        WalkStep(s, x, y);
        SubscribeAllSnoc(m, Rows(s, x) + Row(s, x, y), v);
        y := y + 1;
      }
      RowStep(s, x);
    }

    /** The body of Subscribe's loops: the visit of offsets (x, y). */
    method SubscribeVisit(planet: Planet, index: Index2, activationRange: int, x: int, y: int)
      requires Valid()
      modifies this
      ensures Valid()
      ensures references == SubscribeAt(old(references), VisitAt(Subscription(planet, index, activationRange), x, y))
      ensures entities == old(entities) && job == old(job)
    {
      ghost var v := VisitAt(Subscription(planet, index, activationRange), x, y);
      var i := PlanetIndex2(planet.id, NormalizeXY(Index2(index.x + x, index.y + y), planet));
      assert i == v.key;
      var reference: SubscriptionInfo;
      if i !in references {
        reference := SubscriptionInfo(i, 0, 0, ToLoad);
      } else {
        reference := references[i];
        if reference.state == ToUnload {
          reference := reference.(state := Ready);
        } else if reference.state == Unloading {
          reference := reference.(state := CancelUnload);
        }
      }
      assert reference == SubscribedBase(references, v);
      if -activationRange <= x <= activationRange && -activationRange <= y <= activationRange {
        reference := reference.(hard := reference.hard + 1);
      }
      reference := reference.(soft := reference.soft + 1);
      SubscribeAtConsistent(references, v, job);
      references := references[i := reference];
    }

    /** Releases what Subscribe with the same arguments took. A column
        without a record aborts the call (the dictionary lookup throws),
        keeping what the earlier visits changed; ok says whether the walk
        completed. */
    method Unsubscribe(planet: Planet, index: Index2, activationRange: int) returns (ok: bool)
      requires Valid()
      modifies this
      ensures Valid()
      ensures ok == UnsubscribeAll(old(references), Visits(Subscription(planet, index, activationRange))).ok
      ensures references == UnsubscribeAll(old(references), Visits(Subscription(planet, index, activationRange))).refs
      ensures entities == old(entities) && job == old(job)
    {
      ghost var s := Subscription(planet, index, activationRange);
      ghost var m := references;
      var lo, hi := -activationRange - SoftBorder, activationRange + SoftBorder;
      var x := lo;
      while x <= hi
        invariant x == lo || lo <= x <= hi + 1
        invariant Valid()
        invariant UnsubscribeAll(m, Rows(s, x)) == Unsubscribed(references, true)
        invariant entities == old(entities) && job == old(job)
      {
        var rowDone := UnsubscribeRow(planet, index, activationRange, x, m);
        if !rowDone {
          return false;
        }
        x := x + 1;
      }
      assert Rows(s, x) == Visits(s);
      ok := true;
    }

    /** The inner loop of Unsubscribe: the column of offsets (x, y) for
        every y, stopping at the first column without a record. */
    method UnsubscribeRow(planet: Planet, index: Index2, activationRange: int, x: int, ghost m: References)
      returns (ok: bool)
      requires Valid()
      requires -activationRange - SoftBorder <= x <= activationRange + SoftBorder
      requires UnsubscribeAll(m, Rows(Subscription(planet, index, activationRange), x)) == Unsubscribed(references, true)
      modifies this
      ensures Valid()
      ensures var s := Subscription(planet, index, activationRange);
        && (ok ==> UnsubscribeAll(m, Rows(s, x + 1)) == Unsubscribed(references, true))
        && (!ok ==> UnsubscribeAll(m, Visits(s)) == Unsubscribed(references, false))
      ensures entities == old(entities) && job == old(job)
    {
      ghost var s := Subscription(planet, index, activationRange);
      var lo, hi := -activationRange - SoftBorder, activationRange + SoftBorder;
      RowStep(s, x);
      var y := lo;
      while y <= hi
        invariant lo <= y <= hi + 1
        invariant Valid()
        invariant UnsubscribeAll(m, Rows(s, x) + Row(s, x, y)) == Unsubscribed(references, true)
        invariant entities == old(entities) && job == old(job)
      {
        UnsubscribeWalkStep(m, s, x, y, references);
        var found := UnsubscribeVisit(planet, index, activationRange, x, y);
        if !found {
          return false;
        }
        y := y + 1;
      }
      RowStep(s, x);
      ok := true;
    }

    /** The body of Unsubscribe's loops: the visit of offsets (x, y); found
        is false, and nothing changes, when the column has no record. */
    method UnsubscribeVisit(planet: Planet, index: Index2, activationRange: int, x: int, y: int)
      returns (found: bool)
      requires Valid()
      modifies this
      ensures Valid()
      ensures var v := VisitAt(Subscription(planet, index, activationRange), x, y);
        && found == (v.key in old(references))
        && (found ==> references == UnsubscribeAt(old(references), v))
        && (!found ==> references == old(references))
      ensures entities == old(entities) && job == old(job)
    {
      ghost var v := VisitAt(Subscription(planet, index, activationRange), x, y);
      var i := PlanetIndex2(planet.id, NormalizeXY(Index2(index.x + x, index.y + y), planet));
      assert i == v.key;
      if i !in references {
        return false;
      }
      found := true;
      ghost var m := references;
      UnsubscribeAtConsistent(m, v, job);
      var reference := references[i];
      if -activationRange <= x <= activationRange && -activationRange <= y <= activationRange {
        reference := reference.(hard := reference.hard - 1);
      }
      reference := reference.(soft := reference.soft - 1);
      ghost var dec := reference;
      if reference.soft <= 0 {
        match reference.state
        case Ready => reference := reference.(state := ToUnload);
        case Loading => reference := reference.(state := ToUnload);
        case ToLoad =>
        case CancelUnload => reference := reference.(state := Unloading);
        case _ =>
      }
      references := references[i := reference];
      if reference.soft <= 0 && reference.state == ToLoad {
        references := references - {reference.position};
      }
      assert dec.soft <= 0 && Lost(dec.state).Some? ==> reference == dec.(state := Lost(dec.state).value);
      assert references == UnsubscribeAt(m, v);
    }

    /** Loader step 1: pick a ToLoad region, if any, and mark it Loading. */
    method ClaimLoad() returns (toload: Option<PlanetIndex2>)
      requires Valid() && job == Idle
      modifies this
      ensures Valid()
      ensures toload.None? <==> !HasState(old(references), ToLoad)
      ensures toload.None? ==> references == old(references) && job == Idle
      ensures toload.Some? ==>
        && toload.value in old(references) && old(references)[toload.value].state == ToLoad
        && references == SetState(old(references), toload.value, Loading)
        && job == Load(toload.value)
      ensures entities == old(entities)
    {
      if k :| k in references && references[k].state == ToLoad {
        ClaimLoadKeeps(references, [], k);
        references := references[k := references[k].(state := Loading)];
        job := Load(k);
        toload := Some(k);
      } else {
        toload := None;
      }
    }

    /** Loader step 2: append what the resource manager loaded for the held
        region and commit the load. */
    method FinishLoad(loaded: seq<Entity>)
      requires Valid() && job.Load?
      modifies this
      ensures Valid() && job == Idle
      ensures entities == old(entities) + loaded
      ensures references == CommitLoad(old(references), old(job).key)
    {
      CommitLoadKeeps(references, [], job.key);
      entities := entities + loaded;
      var k := job.key;
      if references[k].state == Loading {
        references := references[k := references[k].(state := Ready)];
      }
      job := Idle;
    }

    /** Loader step 2 as the source writes it: the held region becomes Ready
        whatever state it has reached since the claim, also ToUnload after an
        Unsubscribe during the load. The loader pass uses FinishLoad. */
    method FinishLoadAsWritten(loaded: seq<Entity>)
      requires Valid() && job.Load?
      modifies this
      ensures Valid() && job == Idle
      ensures entities == old(entities) + loaded
      ensures references == CommitLoadAsWritten(old(references), old(job).key)
    {
      CommitLoadKeeps(references, [], job.key);
      entities := entities + loaded;
      var k := job.key;
      references := references[k := references[k].(state := Ready)];
      job := Idle;
    }

    /** Loader step 3: pick a ToUnload region, if any, and mark it Unloading. */
    method ClaimUnload() returns (tounload: Option<PlanetIndex2>)
      requires Valid() && job == Idle
      modifies this
      ensures Valid()
      ensures tounload.None? <==> !HasState(old(references), ToUnload)
      ensures tounload.None? ==> references == old(references) && job == Idle
      ensures tounload.Some? ==>
        && tounload.value in old(references) && old(references)[tounload.value].state == ToUnload
        && references == SetState(old(references), tounload.value, Unloading)
        && job == Unload(tounload.value)
      ensures entities == old(entities)
    {
      if k :| k in references && references[k].state == ToUnload {
        ClaimUnloadKeeps(references, [], k);
        references := references[k := references[k].(state := Unloading)];
        job := Unload(k);
        tounload := Some(k);
      } else {
        tounload := None;
      }
    }

    /** Loader step 4: hand the held region's entities to the resource
        manager for saving and commit the unload. The entities stay in the
        list. */
    method FinishUnload() returns (saved: seq<Entity>)
      requires Valid() && job.Unload?
      modifies this
      ensures Valid() && job == Idle
      ensures saved == EntitiesIn(old(entities), old(job).key)
      ensures entities == old(entities)
      ensures references == CommitUnload(old(references), old(job).key)
    {
      var k := job.key;
      saved := EntitiesIn(entities, k);
      CommitUnloadKeeps(references, [], k);
      var info := references[k];
      if info.state == CancelUnload {
        references := references[k := info.(state := Ready)];
      } else {
        references := references - {info.position};
      }
      job := Idle;
    }

    /** One pass of the loader loop: a ToLoad region is loaded in preference
        to any ToUnload region; a ToUnload region is saved and dropped only
        when nothing waits to be loaded. load stands for the resource
        manager's LoadEntities. */
    method LoaderPass(load: PlanetIndex2 -> seq<Entity>) returns (done: Job, saved: seq<Entity>)
      requires Valid() && job == Idle
      modifies this
      ensures Valid() && job == Idle
      ensures done.Load? <==> HasState(old(references), ToLoad)
      ensures done.Unload? <==> !HasState(old(references), ToLoad) && HasState(old(references), ToUnload)
      ensures done.Load? ==>
        && done.key in old(references) && old(references)[done.key].state == ToLoad
        && references == SetState(old(references), done.key, Ready)
        && entities == old(entities) + load(done.key)
      ensures done.Unload? ==>
        && done.key in old(references) && old(references)[done.key].state == ToUnload
        && references == old(references) - {done.key}
        && saved == EntitiesIn(old(entities), done.key) && entities == old(entities)
      ensures done == Idle ==> references == old(references) && entities == old(entities)
    {
      saved := [];
      var toload := ClaimLoad();
      if toload.Some? {
        FinishLoad(load(toload.value));
        done := Load(toload.value);
        return;
      }
      var tounload := ClaimUnload();
      if tounload.Some? {
        saved := FinishUnload();
        done := Unload(tounload.value);
        return;
      }
      done := Idle;
    }
  }
}
