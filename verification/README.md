# OctoAwesome entity streaming, modelled in Dafny

OctoAwesome streams entities in and out of memory column by column. The
central piece is the `EntityCache`. It keeps a ledger that maps each
planet-qualified chunk column (`PlanetIndex2`) to a `SubscriptionInfo`
record. Each record holds a hard and a soft reference count and a loader
state: ToLoad, Loading, Ready, ToUnload, Unloading or CancelUnload.

- **Subscribe** walks the square of columns around an observer, within
  `activationRange + 1`, and wraps each column onto the planet. It counts
  a soft reference on every column of the square and a hard reference on
  the inner `activationRange` square. A missing record is created in
  ToLoad. A record that is being unloaded gets its unload cancelled.
- **Unsubscribe** walks the same square and releases the same references.
  A record that loses its last soft reference is marked for unloading, or
  dropped if it was never loaded.
- **A background loader** repeatedly claims a ToLoad column, loads its
  entities and commits the load. When nothing is to be loaded, it claims a
  ToUnload column, saves its entities and commits the unload.

Other parts of the model:

- **PermanentEntity** (the player, for instance) subscribes its window on
  `Initialize` and drops it on `Unload`. Whenever its position crosses into
  another column, it moves the window: first unsubscribe the old one, then
  subscribe the new one. The crossing is detected by the `Position` setter
  of `Entity`.
- **EntityList** is the per-column entity list. It can report entities
  whose chunk no longer matches the column.
- **ControllableEntity** latches input (jump, interact, apply) and serves
  the latches in its update:
  - interacting removes a block and picks it up into the inventory;
  - applying places the active tool's block against the aimed-at side and
    uses up one unit.
- **Player** has activation range 4 and a debug fill. The fill picks up
  one unit of every block definition.

## How the model is built

- **The ledger.** The ledger (`Ledger`) is a `map<PlanetIndex2,
  SubscriptionInfo>`. Each step of Subscribe and Unsubscribe is a pure
  function: `SubscribeAt` and `UnsubscribeAt`.
- **The walk.** `Visits(s)` is the sequence of columns the nested loops
  visit, in loop order. `SubscribeAll` and `UnsubscribeAll` fold the steps
  over it.
- **Unsubscribe's error path.** The source reads the dictionary with an
  indexer, so a missing key throws. The model represents this as
  `Unsubscribed(refs, ok)`: `ok` is false and `refs` holds the records the
  earlier visits changed.
- **The cache class.** `Cache.EntityCache` has the ledger, the loaded
  entities and the loader's current job as fields. Its `Subscribe` and
  `Unsubscribe` are the nested loops, proved equal to the folds. Each
  inner loop is a method of its own (`SubscribeRow`, `UnsubscribeRow`),
  and each loop body as well (`SubscribeVisit`, `UnsubscribeVisit`).
- **The loader loop.** It is split into its four locked sections:
  `ClaimLoad`, `FinishLoad`, `ClaimUnload` and `FinishUnload`.
  - `LoaderPass` runs one pass of the loop.
  - The loop's locals `toload` and `tounload` become the `job` field. Any
    Subscribe or Unsubscribe may run between two sections.
  - Entity loading and saving are parameters: the loaded entities are
    handed in, and the saved ones are returned.
- **Invariants and properties.**
  - The class invariant `Valid()` holds under any sequence of calls. It
    says that records sit under their own key, and that the worker and the
    ledger agree on which column is in flight (`WorkerConsistent`).
  - `Balanced(m, subs)` is stronger. It is `Healthy(m)` together with the
    count equations. `Healthy` says that records sit under their own key,
    that no soft count is negative, and that a record is wanted exactly
    while some soft reference holds it. The count equations say that every
    count is exactly what the live subscriptions `subs` hold.
  - The model proves that Subscribe, Unsubscribe of a live subscription,
    moving a subscription and every loader section preserve `Balanced`,
    the load commit in its corrected form (see "## Findings").
  - The load commit as the source writes it keeps every count
    (`CommitLoadAsWrittenKeepsCounts`) but can break `Healthy`, and with
    it `Balanced` (`LoadCommitAfterUnsubscribe`).
- **Inheritance.** The chain `Entity` ← `ControllableEntity` ←
  `PermanentEntity` ← `Player` is modelled by composition. Each class holds
  the one it extends in a `const` field.

## Model

| member | source | states |
|---|---|---|
| Geometry.Wrap | OctoAwesome/OctoAwesome/EntityCache.cs:43-44 | a wrapped coordinate lies on the planet axis, in [0, size) |
| Geometry.NormalizeXY | OctoAwesome/OctoAwesome/EntityCache.cs:43-44 | a normalised column index lies within the planet's X and Y extent |
| Geometry.WrapInjective | OctoAwesome/OctoAwesome/EntityCache.cs:39-46 | two loop offsets less than one planet width apart never wrap onto the same column |
| Geometry.Index3.Plus | OctoAwesome/OctoAwesome/Entities/ControllableEntity.cs:168 | the axis-by-axis sum of the two indices |
| Lists.IndexOf | OctoAwesome/OctoAwesome/EntityList.cs:64-67 | -1 exactly when the element is absent; otherwise the position of its first occurrence |
| Lists.RemoveFirst | OctoAwesome/OctoAwesome/EntityList.cs:64-67 | removing a present element drops exactly one copy (length and multiset both shrink by it); an absent one leaves the list unchanged |
| Lists.RemoveFirstShape | OctoAwesome/OctoAwesome/EntityList.cs:64-67 | the copy removed is the first one; the elements before it and after it keep their order |
| Lists.RemoveFirstKeepsDistinct | OctoAwesome/OctoAwesome/Entities/ControllableEntity.cs:171-175 | removing a slot from an inventory without repeated slots leaves one without repeats, without that slot, and with no new slot |
| Ledger.Row | OctoAwesome/OctoAwesome/EntityCache.cs:41-46 | one run of the inner loop has one visit per y from the lower bound up to the upper bound |
| Ledger.RowShape | OctoAwesome/OctoAwesome/EntityCache.cs:41-46 | the j-th visit of a row has offsets (x, lower bound + j) and is keyed by the wrapped column of the centre plus those offsets |
| Ledger.RowsLength | OctoAwesome/OctoAwesome/EntityCache.cs:39-46 | the outer loop up to x visits Side columns per completed x |
| Ledger.RowsInWindow | OctoAwesome/OctoAwesome/EntityCache.cs:39-46 | every visit lies inside the window of range + soft border and carries the wrapped key and hard flag of its offsets |
| Ledger.RowsOrdered | OctoAwesome/OctoAwesome/EntityCache.cs:39-41 | visits come in the lexicographic (x, then y) order of the two loops |
| Ledger.VisitsLength | OctoAwesome/OctoAwesome/EntityCache.cs:39-46 | a whole walk has (2·range + 3)² visits (none for a range below -1) |
| Ledger.VisitsShape | OctoAwesome/OctoAwesome/EntityCache.cs:39-46 | the whole walk lies in the window and is in loop order |
| Ledger.VisitsDistinct | OctoAwesome/OctoAwesome/EntityCache.cs:43-46 | on a planet at least as wide and long as the window, no column is visited twice by one walk |
| Ledger.VisitsHardCount | OctoAwesome/OctoAwesome/EntityCache.cs:73-79 | exactly (2·range + 1)² visits of a walk fall in the hard square |
| Ledger.Resubscribed | OctoAwesome/OctoAwesome/EntityCache.cs:59-70 | a subscribed record is wanted afterwards; a wanted state is kept; whether an unload or a load is in flight is unchanged; ToLoad is kept and never produced |
| Ledger.Lost | OctoAwesome/OctoAwesome/EntityCache.cs:120-138 | losing the last soft reference removes the record exactly when it is ToLoad, otherwise leaves it unwanted with the in-flight unload unchanged |
| Ledger.SubscribeAt | OctoAwesome/OctoAwesome/EntityCache.cs:43-81 | (definition of one loop body; characterised by SubscribeAllAt) |
| Ledger.SubscribeAll | OctoAwesome/OctoAwesome/EntityCache.cs:31-87 | (definition of the whole call as a fold over the walk; characterised by SubscribeAllAt and SubscribeKeepsBalance) |
| Ledger.UnsubscribeAt | OctoAwesome/OctoAwesome/EntityCache.cs:101-138 | (definition of one loop body on a key that has a record; characterised by UnsubscribeAllAt) |
| Ledger.UnsubscribeAll | OctoAwesome/OctoAwesome/EntityCache.cs:89-144 | (definition of the whole call, including the throw at line 106; characterised by UnsubscribeAllAt, UnsubscribeNeedsKeys and UnsubscribeFailSticks) |
| Ledger.SubscribeAllAt | OctoAwesome/OctoAwesome/EntityCache.cs:39-87 | after Subscribe, per column: the record exists iff it did or the walk reaches it; both counts grew by the walk's hits; an unreached record is untouched; a reached one is re-subscribed or new in ToLoad |
| Ledger.UnsubscribeAllAt | OctoAwesome/OctoAwesome/EntityCache.cs:89-144 | Unsubscribe of a walk the counts cover completes; per column both counts drop by the walk's hits; a record is removed exactly when its last soft reference goes while ToLoad; the state changes by Lost exactly when the last soft reference goes |
| Ledger.RoundTripAt | OctoAwesome/OctoAwesome/EntityCache.cs:31-144 | on a healthy ledger, Subscribe leaves the walk covered, and Unsubscribe of the same walk then completes and gives each column back the record it had (or none) |
| Ledger.SubscribeRoundTrip | OctoAwesome/OctoAwesome/EntityCache.cs:31-144 | Unsubscribe after Subscribe of the same window completes and gives back the healthy ledger it started from |
| Ledger.HardSumLeSoft | OctoAwesome/OctoAwesome/EntityCache.cs:73-81 | the live subscriptions never hold more hard than soft references on a column |
| Ledger.SumsRemove | OctoAwesome/OctoAwesome/EntityCache.cs:89-144 | the counts of the live subscriptions split into one subscription's hits plus the others' |
| Ledger.BalancedHardLeSoft | OctoAwesome/OctoAwesome/EntityCache.cs:218-227 | every record of a balanced ledger has 0 ≤ hard ≤ soft |
| Ledger.SubscribeKeepsBalance | OctoAwesome/OctoAwesome/EntityCache.cs:31-87 | Subscribe keeps the ledger balanced, with the new subscription live |
| Ledger.UnsubscribeKeepsBalance | OctoAwesome/OctoAwesome/EntityCache.cs:89-144 | Unsubscribe of a live subscription completes and leaves the ledger balanced against the others |
| Ledger.FreshRecord | OctoAwesome/OctoAwesome/EntityCache.cs:50-81 | a column first visited gets a ToLoad record under its own key with soft 1, and hard 1 exactly when the visit is in the hard square |
| Ledger.SubscribeFresh | OctoAwesome/OctoAwesome/EntityCache.cs:50-58 | a walk of distinct columns on an empty ledger creates one fresh ToLoad record per visit, with soft 1 and hard by the hard square |
| Ledger.SubscribeOnEmpty | OctoAwesome/OctoAwesome/EntityCache.cs:31-87 | on an empty ledger and a planet that fits the window, Subscribe creates (2·range + 3)² ToLoad records with soft 1, hard 1 exactly in the inner square |
| Ledger.SoftHitsPositive | OctoAwesome/OctoAwesome/EntityCache.cs:81 | a column the walk visits gets at least one soft reference from it |
| Ledger.UnsubscribeNeedsKeys | OctoAwesome/OctoAwesome/EntityCache.cs:106 | Unsubscribe never adds a record, and completes only if every visited column had one |
| Ledger.UnsubscribeAllMissing | OctoAwesome/OctoAwesome/EntityCache.cs:101-108 | an Unsubscribe that finds none of its columns fails at the first and leaves the ledger unchanged |
| Ledger.SoftHitsUnvisited | OctoAwesome/OctoAwesome/EntityCache.cs:43-81 | a column no visit reaches gets no soft reference |
| Ledger.SubscribeOnEmptyPlanet | OctoAwesome/OctoAwesome/EntityCache.cs:43-81 | Subscribe on an empty ledger creates records only on the subscription's planet |
| Ledger.UnsubscribeKeepsClaimed | OctoAwesome/OctoAwesome/EntityCache.cs:120-138 | a record past ToLoad survives any Unsubscribe and never returns to ToLoad |
| Ledger.UnsubscribeFailSticks | OctoAwesome/OctoAwesome/EntityCache.cs:106 | once a visit throws, the rest of the walk is not applied: the ledger stays as that visit left it |
| Ledger.UnsubscribeWalkStep | OctoAwesome/OctoAwesome/EntityCache.cs:101-138 | the visit of (x, y) after a completed prefix either finds its record, and the walk up to (x, y+1) completes with UnsubscribeAt of it, or makes the whole call fail with the ledger as it was |
| Ledger.UnsubscribeAbort | OctoAwesome/OctoAwesome/EntityCache.cs:97-106 | Unsubscribe failing at the visit of (x, y) fails as a whole, with the ledger as that visit left it |
| Ledger.Move | OctoAwesome/OctoAwesome/Entities/PermanentEntity.cs:36-40 | (definition: Unsubscribe of the old window, then Subscribe of the new one if that completed; characterised by MoveKeepsBalance and MoveKeepsTotal) |
| Ledger.MoveKeepsBalance | OctoAwesome/OctoAwesome/Entities/PermanentEntity.cs:32-41 | moving a live subscription to any window completes and keeps the ledger balanced, with the new window live instead of the old one |
| Ledger.SoftTotalRemove | OctoAwesome/OctoAwesome/EntityCache.cs:218-227 | the ledger's total of soft references splits off any one record |
| Ledger.SubscribeTotal | OctoAwesome/OctoAwesome/EntityCache.cs:31-87 | Subscribe adds exactly one soft reference per visited column to the ledger's total |
| Ledger.UnsubscribeTotal | OctoAwesome/OctoAwesome/EntityCache.cs:89-144 | a covered Unsubscribe removes exactly one soft reference per visited column from the total, including from records it removes |
| Ledger.UnsubscribeAtTotal | OctoAwesome/OctoAwesome/EntityCache.cs:110-138 | one visit on a record holding a soft reference drops the total by exactly one, also when it removes the record |
| Ledger.MoveKeepsTotal | OctoAwesome/OctoAwesome/Entities/PermanentEntity.cs:32-41 | moving a live subscription to a window of the same range leaves the ledger's total of soft references unchanged |
| Loader.SetState | OctoAwesome/OctoAwesome/EntityCache.cs:158 | a state change touches one record's state and nothing else |
| Loader.CommitLoad | OctoAwesome/OctoAwesome/EntityCache.cs:169-172 | committing a load makes a Loading record Ready and leaves any other state (ToUnload after a lost reference) and every count as it was |
| Loader.CommitLoadAsWritten | OctoAwesome/OctoAwesome/EntityCache.cs:169-172 | the load commit as the source writes it: the record becomes Ready whatever its state, keeping its position and counts; every other record is untouched |
| Loader.CommitLoadAsWrittenKeepsCounts | OctoAwesome/OctoAwesome/EntityCache.cs:169-172 | the commit as written keeps the records under their keys and every count equal to what the live subscriptions hold |
| Loader.CommitUnload | OctoAwesome/OctoAwesome/EntityCache.cs:198-210 | a CancelUnload record becomes Ready; any other is removed; other records are untouched |
| Loader.SetStateKeepsBalance | OctoAwesome/OctoAwesome/EntityCache.cs:150-210 | a state change between two equally wanted states keeps the ledger balanced |
| Loader.ClaimLoadKeeps | OctoAwesome/OctoAwesome/EntityCache.cs:150-160 | claiming a ToLoad record for an idle worker keeps worker and ledger consistent, with a Load job, and keeps balance |
| Loader.CommitLoadKeeps | OctoAwesome/OctoAwesome/EntityCache.cs:162-173 | the held record is still there when the load commits; the commit returns the worker to idle consistently and keeps balance |
| Loader.ClaimUnloadKeeps | OctoAwesome/OctoAwesome/EntityCache.cs:177-186 | claiming a ToUnload record for an idle worker keeps consistency, with an Unload job, and keeps balance |
| Loader.CommitUnloadKeeps | OctoAwesome/OctoAwesome/EntityCache.cs:188-210 | the held record is still there when the unload commits; the commit returns the worker to idle consistently and keeps balance |
| Loader.ClaimedAfterSubscribe | OctoAwesome/OctoAwesome/EntityCache.cs:150-160 | after one Subscribe on an empty ledger and a load claim, the ledger is balanced and the first column is Loading |
| Loader.UnsubscribeDuringLoad | OctoAwesome/OctoAwesome/EntityCache.cs:89-144 | Unsubscribe during that load completes, leaves a ledger balanced with no live subscription, and the loading column ToUnload with no soft reference |
| Loader.LoadCommitAfterUnsubscribe | OctoAwesome/OctoAwesome/EntityCache.cs:169-172 | committed as written, that column becomes Ready with no reference and the ledger unhealthy; committed as corrected, it stays ToUnload and the ledger balanced |
| Loader.UnsubscribeFoldConsistent | OctoAwesome/OctoAwesome/EntityCache.cs:89-144 | any Unsubscribe, complete or not, keeps records under their keys and the worker consistent |
| Loader.SubscribeFoldConsistent | OctoAwesome/OctoAwesome/EntityCache.cs:31-87 | any Subscribe keeps records under their keys and the worker consistent |
| Entities.ColumnChange | OctoAwesome/OctoAwesome/Entities/Entity.cs:25-32 | the hook is called exactly when the planet or the chunk X/Y differ, with the old and the new column |
| Entities.SameColumnNoHook | OctoAwesome/OctoAwesome/Entities/Entity.cs:25-27 | a move only in chunk Z or within the chunk never calls the hook |
| Entities.Entity.SetPosition | OctoAwesome/OctoAwesome/Entities/Entity.cs:20-35 | the setter makes the hook call of ColumnChange and stores the new position |
| Cache.EntitiesIn | OctoAwesome/OctoAwesome/EntityCache.cs:192-195 | the saved entities are exactly the loaded ones standing in the column |
| Cache.EntitiesInCount | OctoAwesome/OctoAwesome/EntityCache.cs:192-195 | each entity in the column is saved as often as it is listed; others never |
| Cache.EntityCache.constructor | OctoAwesome/OctoAwesome/EntityCache.cs:13-29 | empty ledger, no entities, idle loader |
| Cache.EntityCache.Subscribe | OctoAwesome/OctoAwesome/EntityCache.cs:31-87 | the nested loops leave the ledger SubscribeAll of the walk and keep the invariant |
| Cache.EntityCache.SubscribeRow | OctoAwesome/OctoAwesome/EntityCache.cs:41-82 | one run of the inner loop extends the ledger from SubscribeAll of the rows before x to SubscribeAll of the rows up to x |
| Cache.EntityCache.SubscribeVisit | OctoAwesome/OctoAwesome/EntityCache.cs:43-81 | one loop body is SubscribeAt of its visit |
| Cache.EntityCache.Unsubscribe | OctoAwesome/OctoAwesome/EntityCache.cs:89-144 | the nested loops complete exactly when UnsubscribeAll does, and leave its ledger, also on failure |
| Cache.EntityCache.UnsubscribeRow | OctoAwesome/OctoAwesome/EntityCache.cs:99-140 | one run of the inner loop either completes row x of UnsubscribeAll, or fails and leaves the ledger UnsubscribeAll of the whole walk leaves |
| Cache.EntityCache.UnsubscribeVisit | OctoAwesome/OctoAwesome/EntityCache.cs:101-138 | one loop body finds the record exactly when it exists, and is then UnsubscribeAt of its visit |
| Cache.EntityCache.ClaimLoad | OctoAwesome/OctoAwesome/EntityCache.cs:150-160 | a ToLoad record is claimed, marked Loading and held, exactly when one exists |
| Cache.EntityCache.FinishLoad | OctoAwesome/OctoAwesome/EntityCache.cs:162-173 | the loaded entities are appended and the held record committed with the corrected commit: Ready only if still Loading |
| Cache.EntityCache.FinishLoadAsWritten | OctoAwesome/OctoAwesome/EntityCache.cs:162-173 | the step as written: the loaded entities are appended and the held record becomes Ready whatever its state; the class invariant still holds |
| Cache.EntityCache.ClaimUnload | OctoAwesome/OctoAwesome/EntityCache.cs:177-186 | a ToUnload record is claimed, marked Unloading and held, exactly when one exists |
| Cache.EntityCache.FinishUnload | OctoAwesome/OctoAwesome/EntityCache.cs:188-210 | the entities in the held column are returned for saving and the record is committed |
| Cache.EntityCache.LoaderPass | OctoAwesome/OctoAwesome/EntityCache.cs:146-216 | one pass loads when some record is ToLoad, otherwise unloads when some is ToUnload, otherwise does nothing |
| EntityLists.FailChunks | OctoAwesome/OctoAwesome/EntityList.cs:74-95 | every report names a listed entity with a position component whose chunk X/Y differs from the column, with the column's and the position's chunk and planet |
| EntityLists.Reported | OctoAwesome/OctoAwesome/EntityList.cs:84-92 | the entities of a report, one per record in order |
| EntityLists.FailChunksComplete | OctoAwesome/OctoAwesome/EntityList.cs:76-93 | every misplaced listed entity is reported |
| EntityLists.FailChunksAppend | OctoAwesome/OctoAwesome/EntityList.cs:76 | reports come in list order: the report of a concatenation is the concatenation of the reports |
| EntityLists.EntityList.constructor | OctoAwesome/OctoAwesome/EntityList.cs:17-21 | an empty list for the given column |
| EntityLists.EntityList.Count | OctoAwesome/OctoAwesome/EntityList.cs:23-29 | the number of listed entities |
| EntityLists.EntityList.IsReadOnly | OctoAwesome/OctoAwesome/EntityList.cs:31-37 | the list is never read-only |
| EntityLists.EntityList.Contains | OctoAwesome/OctoAwesome/EntityList.cs:49-52 | true exactly when the entity is listed |
| EntityLists.EntityList.Add | OctoAwesome/OctoAwesome/EntityList.cs:39-42 | appends the entity: one more, and it is contained |
| EntityLists.EntityList.Clear | OctoAwesome/OctoAwesome/EntityList.cs:44-47 | no entities are left |
| EntityLists.EntityList.Remove | OctoAwesome/OctoAwesome/EntityList.cs:64-67 | true exactly when the entity was listed; then its first occurrence is gone and the count drops by one, otherwise nothing changes |
| EntityLists.EntityList.FailChunkEntity | OctoAwesome/OctoAwesome/EntityList.cs:74-95 | the list's report is FailChunks of its entities and column |
| Inventories.View | OctoAwesome/OctoAwesome/Entities/ControllableEntity.cs:68 | the inventory's contents, slot by slot |
| Inventories.FirstFit | OctoAwesome/OctoAwesome/Entities/ControllableEntity.cs:133 | the first slot of the definition below its stack limit, or -1 when none is |
| Inventories.PickUp | OctoAwesome/OctoAwesome/Entities/ControllableEntity.cs:133-145 | (definition of the pick-up rule, shared with Player.cs:58-70; characterised by PickUpShape, PickUpUnits and PickUpWithinLimits) |
| Inventories.PickUpAll | OctoAwesome/OctoAwesome/Player.cs:56-72 | picking up n definitions adds between 0 and n slots |
| Inventories.PickUpShape | OctoAwesome/OctoAwesome/Entities/ControllableEntity.cs:133-145 | a pick-up tops up the first fitting slot and changes no other, or, exactly when none fits, appends a slot of one unit |
| Inventories.UnitsUpdate | OctoAwesome/OctoAwesome/Entities/ControllableEntity.cs:145 | changing one slot changes a definition's units by the difference |
| Inventories.PickUpUnits | OctoAwesome/OctoAwesome/Entities/ControllableEntity.cs:133-145 | a pick-up adds exactly one unit of its definition and none of any other |
| Inventories.PickUpWithinLimits | OctoAwesome/OctoAwesome/Entities/ControllableEntity.cs:133-145 | with a positive stack limit, a pick-up keeps every slot within its limit |
| Inventories.PickUpAllUnits | OctoAwesome/OctoAwesome/Player.cs:52-73 | the debug fill adds, per definition, as many units as it occurs in the list |
| Inventories.PickUpAllWithinLimits | OctoAwesome/OctoAwesome/Player.cs:52-73 | with positive stack limits, the debug fill keeps every slot within its limit |
| Inventories.PickUpAllFresh | OctoAwesome/OctoAwesome/Player.cs:52-73 | on an empty inventory, distinct definitions each get one slot of one unit, in order |
| Controls.Offset | OctoAwesome/OctoAwesome/Entities/ControllableEntity.cs:154-163 | a side gives a unit step along one axis; no side gives no offset |
| Controls.OffsetInjective | OctoAwesome/OctoAwesome/Entities/ControllableEntity.cs:155-163 | different sides place against different neighbours |
| Controls.LocalChunkCache.GetBlock | OctoAwesome/OctoAwesome/Entities/ControllableEntity.cs:126 | the stored block id, or 0 where none is stored |
| Controls.LocalChunkCache.SetBlock | OctoAwesome/OctoAwesome/Entities/ControllableEntity.cs:127 | the block id is stored at the index and nothing else changes |
| Controls.ControllableEntity.constructor | OctoAwesome/OctoAwesome/Entities/ControllableEntity.cs:70-75 | empty inventory, no active tool, fly mode off (the constructor body), no latch set (the field initialisers at lines 14-18), default position |
| Controls.ControllableEntity.Jump | OctoAwesome/OctoAwesome/Entities/ControllableEntity.cs:38-41 | sets the jump latch and nothing else |
| Controls.ControllableEntity.Interact | OctoAwesome/OctoAwesome/Entities/ControllableEntity.cs:47-50 | latches the block index and nothing else |
| Controls.ControllableEntity.Apply | OctoAwesome/OctoAwesome/Entities/ControllableEntity.cs:57-61 | latches the block index and orientation and nothing else |
| Controls.ControllableEntity.PickUpUnit | OctoAwesome/OctoAwesome/Entities/ControllableEntity.cs:133-145 | the inventory's contents become PickUp of the old ones; existing slots keep their places, at most one fresh slot is appended |
| Controls.ControllableEntity.InteractStep | OctoAwesome/OctoAwesome/Entities/ControllableEntity.cs:124-148 | with an interact latch, the block there becomes 0 and, if it held a block, its definition is picked up; the latch is cleared |
| Controls.ControllableEntity.TakeBlock | OctoAwesome/OctoAwesome/Entities/ControllableEntity.cs:124-146 | the block at the index becomes 0; a non-zero block's definition is picked up; a 0 block leaves the inventory as it was |
| Controls.ControllableEntity.PlaceBlock | OctoAwesome/OctoAwesome/Entities/ControllableEntity.cs:152-176 | the tool's block is stored at the index plus the side's offset; the tool loses one unit; once empty it leaves the inventory and stops being active |
| Controls.ControllableEntity.ApplyStep | OctoAwesome/OctoAwesome/Entities/ControllableEntity.cs:150-188 | with an apply latch and a block tool, the tool's block is placed at the latched index plus the side's offset and the tool loses one unit; an emptied tool leaves the inventory and is no longer active; otherwise nothing but the latch changes |
| Controls.ControllableEntity.Update | OctoAwesome/OctoAwesome/Entities/ControllableEntity.cs:117-188 | all three latches are cleared; with no interact or apply latch the blocks and inventory are unchanged |
| Permanent.PermanentEntity.constructor | OctoAwesome/OctoAwesome/Entities/PermanentEntity.cs:13-16 | keeps the activation range; not yet initialised |
| Permanent.PermanentEntity.Current | OctoAwesome/OctoAwesome/Entities/PermanentEntity.cs:22 | the subscription at the current column of the remembered planet, of the activation range |
| Permanent.PermanentEntity.Initialize | OctoAwesome/OctoAwesome/Entities/PermanentEntity.cs:18-23 | remembers the services and planet, and the cache's ledger becomes SubscribeAll of the current window |
| Permanent.PermanentEntity.Unload | OctoAwesome/OctoAwesome/Entities/PermanentEntity.cs:25-30 | fails before Initialize; otherwise the ledger becomes UnsubscribeAll of the current column's window on the planet remembered by Initialize, with its outcome |
| Permanent.PermanentEntity.Held | OctoAwesome/OctoAwesome/Entities/PermanentEntity.cs:36-40 | the window the entity holds: its column on the planet of its position, the planet every column change subscribes on |
| Permanent.PermanentEntity.UnloadHeld | OctoAwesome/OctoAwesome/Entities/PermanentEntity.cs:25-30 | corrected Unload: fails before Initialize; otherwise the ledger becomes UnsubscribeAll of the held window, with its outcome |
| Permanent.StaleUnloadLeaks | OctoAwesome/OctoAwesome/Entities/CollidableEntity.cs:91 | after a move to another planet, the window on the new planet is the live one; Unload on the remembered planet fails and releases nothing, while unsubscribing the held window leaves the ledger empty |
| Permanent.PermanentEntity.OnColumnChanged | OctoAwesome/OctoAwesome/Entities/PermanentEntity.cs:32-41 | fails before Initialize; otherwise the ledger becomes Move of the old column's window to the new one's, each on its own planet |
| Permanent.PermanentEntity.SetPosition | OctoAwesome/OctoAwesome/Entities/Entity.cs:20-35 | a column change moves the subscription first; the position is stored exactly when that completed |
| Players.PlayerWindow | OctoAwesome/OctoAwesome/Player.cs:35-40 | the player's window is 121 columns, 81 of them held hard |
| Players.Player.constructor | OctoAwesome/OctoAwesome/Player.cs:40-47 | a permanent entity with activation range 4 |
| Players.Player.AllBlocksDebug | OctoAwesome/OctoAwesome/Player.cs:52-73 | fails before Initialize; otherwise the inventory becomes PickUpAll of the block definitions, in order |

## Left out

- Locking, the loader thread and its endless loop. The four locked
  sections are separate atomic methods, and `LoaderPass` is one pass of
  the loop. The interleavings are any sequence of those methods with
  Subscribe and Unsubscribe.
- Console logging.
- `resourceManager.LoadEntities` and `SaveEntities`. The loaded entities
  are a parameter of `FinishLoad` and `LoaderPass`, and the entities to
  save are returned. The source never removes saved entities from
  `Entities` (a TODO), and neither does the model.
- `Where(...).FirstOrDefault()` over the dictionary's values picks the
  first matching record in dictionary order. The model claims any
  matching record, because .NET does not specify that order.
- Cache.EntityCache.Subscribe, Cache.EntityCache.Unsubscribe: 32-bit
  overflow of the loop bounds and the reference counts is not modelled;
  the model uses unbounded integers.
- Geometry.NormalizeXY: `Index2.NormalizeXY` is not part of this model. It
  is modelled as the Euclidean remainder by the planet size.
- The game-time physics, velocity, angles and gravity of `Update`
  (ControllableEntity.cs:88-120), and the collision code it calls, use
  floating point. Only the block interaction and the consumption of the
  jump latch are modelled.
- `Move`, `Head`, `Serialize` and `Deserialize`.
- `EntityList.CopyTo` and the enumerators.
- Planets, the definition manager and the local chunk cache are not part
  of this model:
  - `GetPlanet` is a total function from planet id to planet.
  - Block lookups are total functions given by the host.
  - The chunk cache's blocks are a map in which an absent index reads
    as 0.
  - Item definitions are compared by value; the source compares
    references.
- `PositionComponent` is reduced to an optional coordinate on the entity.
- Cache.EntityCache.FinishLoad: commits with the corrected `CommitLoad`
  (Ready only if the record is still Loading), not with the unconditional
  Ready of EntityCache.cs:171; `FinishLoadAsWritten` is the step as
  written, and `LoaderPass` uses the corrected step (see "## Findings").
- Controls.ControllableEntity.Update: states only the cleared latches and
  the no-latch case. The block effects are those of InteractStep followed
  by ApplyStep, whose contracts state them in full.
- The base `Initialize` and `Unload` of the collidable entity (the local
  chunk cache set-up and flush) are not modelled. Only the `planet` and
  `ResourceManager` they record are kept.
- Permanent.PermanentEntity.Unload: unsubscribes on the planet remembered
  by `Initialize`, as the source does, and that planet is never updated
  when the entity changes planet; `UnloadHeld` is the corrected call (see
  "## Findings").

## Findings

| source | as written | input that shows it | evidently intended | confidence | as-written member | corrected member |
|---|---|---|---|---|---|---|
| OctoAwesome/OctoAwesome/EntityCache.cs:169-172 | the load commit sets the record Ready whatever state it is in by then | one Subscribe on an empty ledger; the loader claims the first column (Loading); the same window is unsubscribed before the load finishes (the record is ToUnload with no soft reference); the load commits | a record that lost its last reference while loading stays ToUnload, so that the loader unloads it; as written it becomes Ready with no reference, and neither claim ever picks it again | not executed | Loader.CommitLoadAsWritten, Loader.LoadCommitAfterUnsubscribe, Cache.EntityCache.FinishLoadAsWritten | Loader.CommitLoad, Cache.EntityCache.FinishLoad |
| OctoAwesome/OctoAwesome/Entities/PermanentEntity.cs:25-30 | Unload unsubscribes the current column's window on the planet that Initialize looked up once (CollidableEntity.cs:91), which no later move updates | an entity initialised on planet p moves to a column on planet q (OnColumnChanged releases the window on p and subscribes the one on q); the entity is unloaded | Unload releases the window the entity holds, on the planet of its position; as written the call fails at its first column (no record on p) and the window on q stays subscribed for good | not executed | Permanent.PermanentEntity.Unload, Permanent.StaleUnloadLeaks | Permanent.PermanentEntity.UnloadHeld, Permanent.PermanentEntity.Held |
