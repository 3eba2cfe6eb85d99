/** The subscription ledger of the entity cache: one record per
    (planet, column) with a hard count, a soft count and a loader state,
    and the transitions that Subscribe and Unsubscribe apply to it.

    Subscribe and Unsubscribe walk a square of side 2r+3 around a column
    (r is the activation range, widened by a soft border of one column) in
    row-major order. The walk is the sequence Visits(sub); each visit bumps
    the soft count and, inside the inner square of side 2r+1, the hard
    count. SubscribeAll and UnsubscribeAll fold one visit after another over
    the ledger, exactly as the nested loops of the cache do. */
module Ledger {
  import opened Wrappers
  import opened Geometry

  datatype LoaderState = ToLoad | Loading | Ready | ToUnload | Unloading | CancelUnload

  /** States of a region that some observer still wants resident. */
  predicate Wanted(s: LoaderState) {
    s == ToLoad || s == Loading || s == Ready || s == CancelUnload
  }

  /** States in which the worker holds the region for a load. */
  predicate LoadInFlight(s: LoaderState) {
    s == Loading
  }

  /** States in which the worker is saving the region. */
  predicate UnloadInFlight(s: LoaderState) {
    s == Unloading || s == CancelUnload
  }

  /** The record of one region: its key, its reference counts and its state. */
  datatype SubscriptionInfo = SubscriptionInfo(position: PlanetIndex2, hard: int, soft: int, state: LoaderState)

  type References = map<PlanetIndex2, SubscriptionInfo>

  /** Every record sits under its own key. */
  ghost predicate WellKeyed(m: References) {
    forall k | k in m :: m[k].position == k
  }

  /** One Subscribe/Unsubscribe call's arguments: planet, centre column, activation range. */
  datatype Subscription = Subscription(planet: Planet, center: Index2, range: int)

  /** One pass of the loop body: the loop offsets, the normalised key they
      reach and whether they lie in the hard (inner) square. */
  datatype Visit = Visit(dx: int, dy: int, key: PlanetIndex2, hard: bool)

  const SoftBorder: int := 1

  function KeyAt(s: Subscription, dx: int, dy: int): PlanetIndex2 {
    PlanetIndex2(s.planet.id, NormalizeXY(Index2(s.center.x + dx, s.center.y + dy), s.planet))
  }

  predicate InHardSquare(range: int, dx: int, dy: int) {
    -range <= dx <= range && -range <= dy <= range
  }

  function VisitAt(s: Subscription, dx: int, dy: int): Visit {
    Visit(dx, dy, KeyAt(s, dx, dy), InHardSquare(s.range, dx, dy))
  }

  /** The side of the soft square: 2r+3, or nothing when the loop bounds cross. */
  function Side(range: int): nat {
    if range < -1 then 0 else 2 * range + 3
  }

  /** Lexicographic order of loop offsets: the order in which the walk visits them. */
  predicate Before(a: Visit, b: Visit) {
    a.dx < b.dx || (a.dx == b.dx && a.dy < b.dy)
  }

  /** The visits of row dx with y running from -r-1 up to hi-1. */
  function Row(s: Subscription, dx: int, hi: int): (r: seq<Visit>)
    ensures |r| == if hi <= -s.range - SoftBorder then 0 else hi + s.range + SoftBorder
    decreases hi + s.range + SoftBorder
  {
    if hi <= -s.range - SoftBorder then [] else Row(s, dx, hi - 1) + [VisitAt(s, dx, hi - 1)]
  }

  /** Row dx visits y = -r-1, -r, ... in order. */
  lemma {:induction false} RowShape(s: Subscription, dx: int, hi: int)
    ensures forall i | 0 <= i < |Row(s, dx, hi)| :: Row(s, dx, hi)[i] == VisitAt(s, dx, -s.range - SoftBorder + i)
    decreases hi + s.range + SoftBorder
  {
    if hi > -s.range - SoftBorder {
      RowShape(s, dx, hi - 1);
    }
  }

  /** The visits of the rows -r-1 .. hx-1, each row complete. */
  function Rows(s: Subscription, hx: int): (r: seq<Visit>)
    decreases hx + s.range + SoftBorder
  {
    if hx <= -s.range - SoftBorder then []
    else Rows(s, hx - 1) + Row(s, hx - 1, s.range + SoftBorder + 1)
  }

  /** Every visit of a walk prefix lies in the window and is the visit of its offsets. */
  ghost predicate InWindow(s: Subscription, hx: int, r: seq<Visit>) {
    forall i | 0 <= i < |r| ::
      && -s.range - SoftBorder <= r[i].dx < hx
      && -s.range - SoftBorder <= r[i].dy <= s.range + SoftBorder
      && r[i] == VisitAt(s, r[i].dx, r[i].dy)
  }

  /** The walk visits offsets in strictly increasing row-major order. */
  ghost predicate Ordered(r: seq<Visit>) {
    forall i, j | 0 <= i < j < |r| :: Before(r[i], r[j])
  }

  lemma {:induction false} RowsLength(s: Subscription, hx: int)
    ensures |Rows(s, hx)| == if hx <= -s.range - SoftBorder then 0 else (hx + s.range + SoftBorder) * Side(s.range)
    decreases hx + s.range + SoftBorder
  {
    if hx > -s.range - SoftBorder {
      RowsLength(s, hx - 1);
      var n := Side(s.range);
      assert |Row(s, hx - 1, s.range + SoftBorder + 1)| == n;
      assert (hx - 1 + s.range + SoftBorder) * n + n == (hx + s.range + SoftBorder) * n;
    }
  }

  lemma {:induction false} RowsInWindow(s: Subscription, hx: int)
    ensures InWindow(s, hx, Rows(s, hx))
    decreases hx + s.range + SoftBorder
  {
    if hx > -s.range - SoftBorder {
      RowsInWindow(s, hx - 1);
      InWindowWiden(s, hx - 1, hx, Rows(s, hx - 1));
      RowInWindow(s, hx - 1);
      InWindowAppend(s, hx, Rows(s, hx - 1), Row(s, hx - 1, s.range + SoftBorder + 1));
    }
  }

  lemma InWindowWiden(s: Subscription, a: int, b: int, r: seq<Visit>)
    requires a <= b && InWindow(s, a, r)
    ensures InWindow(s, b, r)
  {
  }

  lemma InWindowAppend(s: Subscription, hx: int, a: seq<Visit>, b: seq<Visit>)
    requires InWindow(s, hx, a) && InWindow(s, hx, b)
    ensures InWindow(s, hx, a + b)
  {
    forall i | 0 <= i < |a + b|
      ensures -s.range - SoftBorder <= (a + b)[i].dx < hx
      ensures -s.range - SoftBorder <= (a + b)[i].dy <= s.range + SoftBorder
      ensures (a + b)[i] == VisitAt(s, (a + b)[i].dx, (a + b)[i].dy)
    {
      if i < |a| {
        assert (a + b)[i] == a[i];
      } else {
        assert (a + b)[i] == b[i - |a|];
      }
    }
  }

  /** A complete row dx lies in the window up to dx and runs up y. */
  lemma RowInWindow(s: Subscription, dx: int)
    requires dx >= -s.range - SoftBorder
    ensures InWindow(s, dx + 1, Row(s, dx, s.range + SoftBorder + 1))
  {
    RowShape(s, dx, s.range + SoftBorder + 1);
  }

  /** Every visit of row dx has offset dx, and the row runs up y. */
  lemma RowDx(s: Subscription, dx: int, hi: int)
    ensures forall i | 0 <= i < |Row(s, dx, hi)| :: Row(s, dx, hi)[i].dx == dx
    ensures Ordered(Row(s, dx, hi))
  {
    RowShape(s, dx, hi);
  }

  /** Two ordered walks, the first strictly before row d and the second
      within row d, concatenate to an ordered walk. */
  lemma OrderedAppend(a: seq<Visit>, b: seq<Visit>, d: int)
    requires Ordered(a) && Ordered(b)
    requires forall i | 0 <= i < |a| :: a[i].dx < d
    requires forall j | 0 <= j < |b| :: b[j].dx == d
    ensures Ordered(a + b)
  {
    forall i, j | 0 <= i < j < |a + b|
      ensures Before((a + b)[i], (a + b)[j])
    {
      if j < |a| {
        assert (a + b)[i] == a[i] && (a + b)[j] == a[j];
      } else if i < |a| {
        assert (a + b)[i] == a[i] && (a + b)[j] == b[j - |a|];
      } else {
        assert (a + b)[i] == b[i - |a|] && (a + b)[j] == b[j - |a|];
      }
    }
  }

  /** The rows before hx only hold visits of rows below hx. */
  lemma RowsBelow(s: Subscription, hx: int)
    ensures forall i | 0 <= i < |Rows(s, hx)| :: Rows(s, hx)[i].dx < hx
  {
    RowsInWindow(s, hx);
  }

  lemma {:induction false} RowsOrdered(s: Subscription, hx: int)
    ensures Ordered(Rows(s, hx))
    decreases hx + s.range + SoftBorder
  {
    if hx > -s.range - SoftBorder {
      RowsOrdered(s, hx - 1);
      var prev, row := Rows(s, hx - 1), Row(s, hx - 1, s.range + SoftBorder + 1);
      RowsBelow(s, hx - 1);
      RowDx(s, hx - 1, s.range + SoftBorder + 1);
      OrderedAppend(prev, row, hx - 1);
    }
  }

  /** The whole walk of one Subscribe or Unsubscribe call. */
  function Visits(s: Subscription): seq<Visit> {
    Rows(s, s.range + SoftBorder + 1)
  }

  /** The walk has one visit per column of the square of side 2r+3. */
  lemma VisitsLength(s: Subscription)
    ensures |Visits(s)| == Side(s.range) * Side(s.range)
  {
    RowsLength(s, s.range + SoftBorder + 1);
  }

  /** The walk covers the square of side 2r+3 in row-major order, each visit
      carrying the key and the hard flag of its offsets. */
  lemma VisitsShape(s: Subscription)
    ensures InWindow(s, s.range + SoftBorder + 1, Visits(s))
    ensures Ordered(Visits(s))
  {
    RowsInWindow(s, s.range + SoftBorder + 1);
    RowsOrdered(s, s.range + SoftBorder + 1);
  }

  /** Re-subscribing an existing record. */
  function Resubscribed(s: LoaderState): (r: LoaderState)
    ensures Wanted(r)
    ensures Wanted(s) ==> r == s
    ensures UnloadInFlight(r) == UnloadInFlight(s)
    ensures LoadInFlight(r) == LoadInFlight(s)
    ensures r == ToLoad <==> s == ToLoad
  {
    match s
    case ToUnload => Ready
    case Unloading => CancelUnload
    case _ => s
  }

  /** Losing the last soft reference; None means the record is removed. */
  function Lost(s: LoaderState): (r: Option<LoaderState>)
    ensures r.None? <==> s == ToLoad
    ensures r.Some? ==> !Wanted(r.value)
    ensures r.Some? ==> UnloadInFlight(r.value) == UnloadInFlight(s)
    ensures r.Some? && !Wanted(s) ==> r.value == s
  {
    match s
    case Ready => Some(ToUnload)
    case Loading => Some(ToUnload)
    case ToLoad => None
    case CancelUnload => Some(Unloading)
    case _ => Some(s)
  }

  /** The record a visit of Subscribe finds or creates, before counting. */
  function SubscribedBase(m: References, v: Visit): SubscriptionInfo {
    if v.key in m then m[v.key].(state := Resubscribed(m[v.key].state))
    else SubscriptionInfo(v.key, 0, 0, ToLoad)
  }

  /** One visit of Subscribe. */
  function SubscribeAt(m: References, v: Visit): References {
    var base := SubscribedBase(m, v);
    m[v.key := base.(hard := base.hard + (if v.hard then 1 else 0), soft := base.soft + 1)]
  }

  /** Subscribe: the visits applied one after another. */
  function SubscribeAll(m: References, vs: seq<Visit>): References {
    if vs == [] then m else SubscribeAt(SubscribeAll(m, vs[..|vs| - 1]), vs[|vs| - 1])
  }

  /** One visit of Unsubscribe on a key that has a record. */
  function UnsubscribeAt(m: References, v: Visit): References
    requires v.key in m
  {
    var info := m[v.key];
    var dec := info.(hard := info.hard - (if v.hard then 1 else 0), soft := info.soft - 1);
    if dec.soft > 0 then m[v.key := dec]
    else
      match Lost(dec.state)
      case None => m[v.key := dec] - {dec.position}
      case Some(st) => m[v.key := dec.(state := st)]
  }

  /** The ledger after Unsubscribe, and whether it completed; a visit of a
      key without a record aborts the call (the dictionary indexer throws)
      and leaves the records the earlier visits changed. */
  datatype Unsubscribed = Unsubscribed(refs: References, ok: bool)

  function UnsubscribeAll(m: References, vs: seq<Visit>): Unsubscribed {
    if vs == [] then Unsubscribed(m, true)
    else
      var p, v := UnsubscribeAll(m, vs[..|vs| - 1]), vs[|vs| - 1];
      if !p.ok then p
      else if v.key !in p.refs then Unsubscribed(p.refs, false)
      else Unsubscribed(UnsubscribeAt(p.refs, v), true)
  }

  // ---------------------------------------------------------------------
  // Per-key accounting of a walk.

  /** How many visits of the walk reach key k (its soft references). */
  function SoftHits(vs: seq<Visit>, k: PlanetIndex2): (n: nat)
    ensures n <= |vs|
  {
    if vs == [] then 0
    else SoftHits(vs[..|vs| - 1], k) + (if vs[|vs| - 1].key == k then 1 else 0)
  }

  /** How many visits of the walk reach key k inside the hard square. */
  function HardHits(vs: seq<Visit>, k: PlanetIndex2): (n: nat)
    ensures n <= SoftHits(vs, k)
  {
    if vs == [] then 0
    else HardHits(vs[..|vs| - 1], k) + (if vs[|vs| - 1].key == k && vs[|vs| - 1].hard then 1 else 0)
  }

  /** The soft count of k, reading a missing record as zero. */
  function Soft0(m: References, k: PlanetIndex2): int {
    if k in m then m[k].soft else 0
  }

  /** The hard count of k, reading a missing record as zero. */
  function Hard0(m: References, k: PlanetIndex2): int {
    if k in m then m[k].hard else 0
  }

  /** Subscribe, seen from one key: the record exists iff it did or the walk
      reaches it; both counts grow by the key's hits; a record the walk does
      not reach is untouched; one it reaches is re-subscribed, or created in
      ToLoad. */
  lemma {:induction false} SubscribeAllAt(m: References, vs: seq<Visit>, k: PlanetIndex2)
    requires WellKeyed(m)
    ensures var r := SubscribeAll(m, vs);
      && WellKeyed(r)
      && (k in r <==> k in m || SoftHits(vs, k) > 0)
      && Soft0(r, k) == Soft0(m, k) + SoftHits(vs, k)
      && Hard0(r, k) == Hard0(m, k) + HardHits(vs, k)
      && (SoftHits(vs, k) == 0 && k in m ==> r[k] == m[k])
      && (SoftHits(vs, k) > 0 && k in m ==> r[k].state == Resubscribed(m[k].state))
      && (SoftHits(vs, k) > 0 && k !in m ==> r[k].state == ToLoad)
  {
    if vs != [] {
      var pre, v := vs[..|vs| - 1], vs[|vs| - 1];
      SubscribeAllAt(m, pre, k);
      SubscribeAllAt(m, pre, v.key);
      var p := SubscribeAll(m, pre);
      assert SubscribeAll(m, vs) == SubscribeAt(p, v);
    }
  }

  /** The ledger holds at least as many soft references of every key as the
      walk will release: the walk is matched by earlier subscriptions. */
  ghost predicate Covered(m: References, vs: seq<Visit>) {
    forall k :: SoftHits(vs, k) <= Soft0(m, k)
  }

  /** The key's record is taken out by a covered walk: it reaches the key,
      releases its last soft reference and finds it still ToLoad. */
  ghost predicate Dropped(m: References, vs: seq<Visit>, k: PlanetIndex2) {
    SoftHits(vs, k) > 0 && Soft0(m, k) == SoftHits(vs, k) && k in m && m[k].state == ToLoad
  }

  /** Unsubscribe, seen from one key, for a covered walk: the call completes,
      a record is removed only when its last soft reference goes and it was
      still ToLoad, both counts drop by the key's hits, and the state changes
      (by Lost) exactly when the last soft reference goes. */
  lemma {:induction false} UnsubscribeAllAt(m: References, vs: seq<Visit>, k: PlanetIndex2)
    requires WellKeyed(m)
    requires Covered(m, vs)
    ensures var u := UnsubscribeAll(m, vs);
      && u.ok
      && WellKeyed(u.refs)
      && (k in u.refs <==> k in m && !Dropped(m, vs, k))
      && Soft0(u.refs, k) == Soft0(m, k) - SoftHits(vs, k)
      && (k in u.refs ==> u.refs[k].hard == m[k].hard - HardHits(vs, k))
      && (k in u.refs && SoftHits(vs, k) > 0 && Soft0(m, k) == SoftHits(vs, k) ==>
            u.refs[k].state == Lost(m[k].state).value)
      && (k in u.refs && !(SoftHits(vs, k) > 0 && Soft0(m, k) == SoftHits(vs, k)) ==>
            u.refs[k].state == m[k].state)
  {
    if vs != [] {
      var pre, v := vs[..|vs| - 1], vs[|vs| - 1];
      assert Covered(m, pre) by {
        forall k' ensures SoftHits(pre, k') <= Soft0(m, k') {
          assert SoftHits(pre, k') <= SoftHits(vs, k');
        }
      }
      UnsubscribeAllAt(m, pre, k);
      UnsubscribeAllAt(m, pre, v.key);
      var p := UnsubscribeAll(m, pre);
      assert SoftHits(vs, v.key) <= Soft0(m, v.key);
      assert v.key in p.refs;
      assert UnsubscribeAll(m, vs) == Unsubscribed(UnsubscribeAt(p.refs, v), true);
    }
  }

  // ---------------------------------------------------------------------
  // Health of the ledger and the subscribe/unsubscribe round trip.

  /** A ledger as matched subscriptions leave it: records under their own
      keys, no negative soft count, and a record is wanted (ToLoad, Loading,
      Ready, CancelUnload) exactly while some soft reference holds it. */
  ghost predicate Healthy(m: References) {
    && WellKeyed(m)
    && forall k | k in m :: m[k].soft >= 0 && (m[k].soft > 0 <==> Wanted(m[k].state))
  }

  lemma RoundTripAt(m: References, vs: seq<Visit>, k: PlanetIndex2)
    requires Healthy(m)
    ensures Covered(SubscribeAll(m, vs), vs)
    ensures var u := UnsubscribeAll(SubscribeAll(m, vs), vs);
      u.ok && (k in u.refs <==> k in m) && (k in m ==> u.refs[k] == m[k])
  {
    var r := SubscribeAll(m, vs);
    forall k' ensures SoftHits(vs, k') <= Soft0(r, k') {
      SubscribeAllAt(m, vs, k');
    }
    SubscribeAllAt(m, vs, k);
    UnsubscribeAllAt(r, vs, k);
  }

  /** Subscribe followed by Unsubscribe with the same arguments gives the
      ledger back unchanged: every touched record gets its counts and its
      state back, and records the subscribe created are removed again. */
  lemma SubscribeRoundTrip(m: References, vs: seq<Visit>)
    requires Healthy(m)
    ensures UnsubscribeAll(SubscribeAll(m, vs), vs) == Unsubscribed(m, true)
  {
    var u := UnsubscribeAll(SubscribeAll(m, vs), vs);
    forall k ensures (k in u.refs <==> k in m) && (k in m ==> u.refs[k] == m[k]) {
      RoundTripAt(m, vs, k);
    }
    RoundTripAt(m, vs, PlanetIndex2(0, Index2(0, 0)));
    assert u.refs == m;
  }

  // ---------------------------------------------------------------------
  // Balance against the live subscriptions.

  /** The soft references the live subscriptions hold on key k. */
  function SoftSum(subs: seq<Subscription>, k: PlanetIndex2): nat {
    if subs == [] then 0 else SoftSum(subs[..|subs| - 1], k) + SoftHits(Visits(subs[|subs| - 1]), k)
  }

  /** The hard references the live subscriptions hold on key k. */
  function HardSum(subs: seq<Subscription>, k: PlanetIndex2): nat {
    if subs == [] then 0 else HardSum(subs[..|subs| - 1], k) + HardHits(Visits(subs[|subs| - 1]), k)
  }

  /** No key is held hard more often than soft. */
  lemma {:induction false} HardSumLeSoft(subs: seq<Subscription>, k: PlanetIndex2)
    ensures HardSum(subs, k) <= SoftSum(subs, k)
    decreases |subs|
  {
    if subs != [] {
      HardSumLeSoft(subs[..|subs| - 1], k);
    }
  }

  lemma {:induction false} SoftSumAppend(a: seq<Subscription>, b: seq<Subscription>, k: PlanetIndex2)
    ensures SoftSum(a + b, k) == SoftSum(a, k) + SoftSum(b, k)
    decreases |b|
  {
    if b == [] {
      assert a + b == a;
    } else {
      var ab, b', last := a + b, b[..|b| - 1], b[|b| - 1];
      SoftSumAppend(a, b', k);
      var hits := SoftHits(Visits(last), k);
      assert SoftSum(ab, k) == SoftSum(a + b', k) + hits by {
        assert ab[..|ab| - 1] == a + b' && ab[|ab| - 1] == last;
      }
      assert SoftSum(b, k) == SoftSum(b', k) + hits;
    }
  }

  lemma {:induction false} HardSumAppend(a: seq<Subscription>, b: seq<Subscription>, k: PlanetIndex2)
    ensures HardSum(a + b, k) == HardSum(a, k) + HardSum(b, k)
    decreases |b|
  {
    if b == [] {
      assert a + b == a;
    } else {
      var ab, b', last := a + b, b[..|b| - 1], b[|b| - 1];
      HardSumAppend(a, b', k);
      var hits := HardHits(Visits(last), k);
      assert HardSum(ab, k) == HardSum(a + b', k) + hits by {
        assert ab[..|ab| - 1] == a + b' && ab[|ab| - 1] == last;
      }
      assert HardSum(b, k) == HardSum(b', k) + hits;
    }
  }

  lemma SumsAppend(a: seq<Subscription>, b: seq<Subscription>, k: PlanetIndex2)
    ensures SoftSum(a + b, k) == SoftSum(a, k) + SoftSum(b, k)
    ensures HardSum(a + b, k) == HardSum(a, k) + HardSum(b, k)
  {
    SoftSumAppend(a, b, k);
    HardSumAppend(a, b, k);
  }

  /** Taking subscription i out of the live list takes exactly its hits out of the sums. */
  lemma SumsRemove(subs: seq<Subscription>, i: nat, k: PlanetIndex2)
    requires i < |subs|
    ensures SoftSum(subs, k) == SoftSum(subs[..i] + subs[i + 1..], k) + SoftHits(Visits(subs[i]), k)
    ensures HardSum(subs, k) == HardSum(subs[..i] + subs[i + 1..], k) + HardHits(Visits(subs[i]), k)
  {
    assert subs == subs[..i] + [subs[i]] + subs[i + 1..];
    SumsAppend(subs[..i] + [subs[i]], subs[i + 1..], k);
    SumsAppend(subs[..i], [subs[i]], k);
    SumsAppend(subs[..i], subs[i + 1..], k);
    assert [subs[i]][..0] == [];
  }

  /** The ledger is healthy and every key's counts are exactly what the live
      subscriptions (each subscribed once and not yet unsubscribed) hold. */
  ghost predicate Balanced(m: References, subs: seq<Subscription>) {
    && Healthy(m)
    && forall k :: Soft0(m, k) == SoftSum(subs, k) && Hard0(m, k) == HardSum(subs, k)
  }

  lemma EmptyBalanced()
    ensures Balanced(map[], [])
  {
  }

  /** Every record of a balanced ledger has 0 <= hard <= soft. */
  lemma BalancedHardLeSoft(m: References, subs: seq<Subscription>, k: PlanetIndex2)
    requires Balanced(m, subs)
    requires k in m
    ensures 0 <= m[k].hard <= m[k].soft
  {
    assert Soft0(m, k) == SoftSum(subs, k) && Hard0(m, k) == HardSum(subs, k);
    HardSumLeSoft(subs, k);
  }

  /** Subscribe keeps the ledger balanced, with the new subscription live. */
  lemma SubscribeKeepsBalance(m: References, subs: seq<Subscription>, s: Subscription)
    requires Balanced(m, subs)
    ensures Balanced(SubscribeAll(m, Visits(s)), subs + [s])
  {
    var vs := Visits(s);
    var r := SubscribeAll(m, vs);
    assert (subs + [s])[..|subs|] == subs;
    forall k ensures Soft0(r, k) == SoftSum(subs + [s], k) && Hard0(r, k) == HardSum(subs + [s], k) {
      SubscribeAllAt(m, vs, k);
      assert Soft0(m, k) == SoftSum(subs, k) && Hard0(m, k) == HardSum(subs, k);
    }
    forall k | k in r ensures r[k].soft >= 0 && (r[k].soft > 0 <==> Wanted(r[k].state)) {
      SubscribeAllAt(m, vs, k);
    }
    SubscribeAllAt(m, vs, PlanetIndex2(0, Index2(0, 0)));
  }

  /** Unsubscribing a live subscription completes, and leaves the ledger
      balanced against the remaining ones. */
  lemma UnsubscribeKeepsBalance(m: References, subs: seq<Subscription>, i: nat)
    requires Balanced(m, subs)
    requires i < |subs|
    ensures var u := UnsubscribeAll(m, Visits(subs[i]));
      u.ok && Balanced(u.refs, subs[..i] + subs[i + 1..])
  {
    var vs, rest := Visits(subs[i]), subs[..i] + subs[i + 1..];
    assert Covered(m, vs) by {
      forall k ensures SoftHits(vs, k) <= Soft0(m, k) {
        SumsRemove(subs, i, k);
        assert Soft0(m, k) == SoftSum(subs, k);
      }
    }
    var u := UnsubscribeAll(m, vs);
    UnsubscribeAllAt(m, vs, PlanetIndex2(0, Index2(0, 0)));
    forall k ensures Soft0(u.refs, k) == SoftSum(rest, k) && Hard0(u.refs, k) == HardSum(rest, k) {
      SumsRemove(subs, i, k);
      UnsubscribeAllAt(m, vs, k);
      assert Soft0(m, k) == SoftSum(subs, k) && Hard0(m, k) == HardSum(subs, k);
      HardSumLeSoft(rest, k);
    }
    forall k | k in u.refs ensures u.refs[k].soft >= 0 && (u.refs[k].soft > 0 <==> Wanted(u.refs[k].state)) {
      UnsubscribeAllAt(m, vs, k);
    }
  }

  // ---------------------------------------------------------------------
  // Subscribing on an empty ledger.

  /** The planet is at least as wide and as long as the walk's square, so
      the wrap-around never folds two offsets onto one column. */
  predicate FitsPlanet(s: Subscription) {
    Side(s.range) <= s.planet.sizeX && Side(s.range) <= s.planet.sizeY
  }

  ghost predicate DistinctKeys(vs: seq<Visit>) {
    forall i, j | 0 <= i < j < |vs| :: vs[i].key != vs[j].key
  }

  /** On a planet the square fits on, the walk reaches every column once. */
  lemma VisitsDistinct(s: Subscription)
    requires FitsPlanet(s)
    ensures DistinctKeys(Visits(s))
  {
    var vs, w := Visits(s), s.range + SoftBorder;
    VisitsShape(s);
    forall i, j | 0 <= i < j < |vs| ensures vs[i].key != vs[j].key {
      var a, b := vs[i], vs[j];
      assert Before(a, b);
      assert a == VisitAt(s, a.dx, a.dy) && b == VisitAt(s, b.dx, b.dy);
      if a.key == b.key {
        if a.dx < b.dx {
          WrapInjective(s.center.x + a.dx, s.center.x + b.dx, s.planet.sizeX);
        } else {
          WrapInjective(s.center.y + a.dy, s.center.y + b.dy, s.planet.sizeY);
        }
      }
    }
  }

  /** The columns a walk reaches. */
  ghost function KeysOf(vs: seq<Visit>): set<PlanetIndex2> {
    set i | 0 <= i < |vs| :: vs[i].key
  }

  /** The record a single visit leaves on an empty ledger. */
  function FreshRecord(v: Visit): (r: SubscriptionInfo)
    ensures r.state == ToLoad && r.soft == 1 && r.position == v.key
    ensures r.hard == 1 <==> v.hard
    ensures r.hard == 0 <==> !v.hard
  {
    SubscriptionInfo(v.key, if v.hard then 1 else 0, 1, ToLoad)
  }

  /** The columns of a walk extended by one visit. */
  lemma KeysOfSnoc(pre: seq<Visit>, v: Visit)
    ensures KeysOf(pre + [v]) == KeysOf(pre) + {v.key}
  {
    var vs := pre + [v];
    forall k | k in KeysOf(vs) ensures k in KeysOf(pre) + {v.key} {
      var i :| 0 <= i < |vs| && vs[i].key == k;
      if i < |pre| { assert vs[i] == pre[i]; }
    }
    forall k | k in KeysOf(pre) ensures k in KeysOf(vs) {
      var i :| 0 <= i < |pre| && pre[i].key == k;
      assert vs[i] == pre[i];
    }
    assert vs[|vs| - 1] == v;
  }

  /** A walk that reaches every column once, folded over an empty ledger,
      creates one fresh record per visit and nothing else. */
  lemma {:induction false} SubscribeFresh(vs: seq<Visit>)
    requires DistinctKeys(vs)
    ensures var r := SubscribeAll(map[], vs);
      && r.Keys == KeysOf(vs)
      && |r| == |vs|
      && forall i | 0 <= i < |vs| :: r[vs[i].key] == FreshRecord(vs[i])
  {
    if vs != [] {
      var pre, v := vs[..|vs| - 1], vs[|vs| - 1];
      assert vs == pre + [v];
      DistinctKeysSnoc(pre, v);
      SubscribeFresh(pre);
      KeysOfSnoc(pre, v);
      var p := SubscribeAll(map[], pre);
      var r := p[v.key := FreshRecord(v)];
      assert SubscribeAll(map[], vs) == r;
      forall i | 0 <= i < |vs| ensures r[vs[i].key] == FreshRecord(vs[i]) {
        if i < |pre| {
          assert vs[i] == pre[i];
        }
      }
    }
  }

  /** A walk with distinct keys, split off its last visit. */
  lemma DistinctKeysSnoc(pre: seq<Visit>, v: Visit)
    requires DistinctKeys(pre + [v])
    ensures DistinctKeys(pre) && v.key !in KeysOf(pre)
  {
    var vs := pre + [v];
    forall i, j | 0 <= i < j < |pre| ensures pre[i].key != pre[j].key {
      assert vs[i] == pre[i] && vs[j] == pre[j];
    }
    forall i | 0 <= i < |pre| ensures pre[i].key != v.key {
      assert vs[i] == pre[i] && vs[|pre|] == v;
    }
  }

  /** Subscribe on an empty ledger, on a planet the square fits on: exactly
      (2r+3)^2 records, every one ToLoad with soft count 1, hard count 1 on
      the visits inside the inner square and 0 on the border. */
  lemma SubscribeOnEmpty(s: Subscription)
    requires FitsPlanet(s)
    requires s.range >= 0
    ensures var r := SubscribeAll(map[], Visits(s));
      && |r| == (2 * s.range + 3) * (2 * s.range + 3)
      && r.Keys == KeysOf(Visits(s))
      && forall i | 0 <= i < |Visits(s)| ::
           var v := Visits(s)[i];
           && r[v.key].state == ToLoad && r[v.key].soft == 1
           && (r[v.key].hard == if InHardSquare(s.range, v.dx, v.dy) then 1 else 0)
  {
    VisitsLength(s);
    VisitsDistinct(s);
    RowsInWindow(s, s.range + SoftBorder + 1);
    SubscribeFresh(Visits(s));
  }

  /** How many visits of the walk lie in the hard square. */
  function HardCount(vs: seq<Visit>): (n: nat)
    ensures n <= |vs|
  {
    if vs == [] then 0 else HardCount(vs[..|vs| - 1]) + (if vs[|vs| - 1].hard then 1 else 0)
  }

  lemma {:induction false} HardCountAppend(a: seq<Visit>, b: seq<Visit>)
    ensures HardCount(a + b) == HardCount(a) + HardCount(b)
    decreases |b|
  {
    if b == [] {
      assert a + b == a;
    } else {
      assert (a + b)[..|a + b| - 1] == a + b[..|b| - 1];
      HardCountAppend(a, b[..|b| - 1]);
    }
  }

  /** The number of integers y with -r <= y <= r and y < h. */
  function Clip(h: int, r: nat): nat {
    if h + r <= 0 then 0 else if h > r then 2 * r + 1 else h + r
  }

  lemma {:induction false} RowHardCount(s: Subscription, dx: int, hi: int)
    requires s.range >= 0
    ensures HardCount(Row(s, dx, hi)) == if -s.range <= dx <= s.range then Clip(hi, s.range) else 0
    decreases hi + s.range + SoftBorder
  {
    if hi > -s.range - SoftBorder {
      RowHardCount(s, dx, hi - 1);
      var row := Row(s, dx, hi);
      assert row[..|row| - 1] == Row(s, dx, hi - 1);
    }
  }

  /** A complete row holds 2r+1 hard visits if its dx is in the hard square, else none. */
  lemma FullRowHardCount(s: Subscription, dx: int)
    requires s.range >= 0
    ensures HardCount(Row(s, dx, s.range + SoftBorder + 1)) == if -s.range <= dx <= s.range then 2 * s.range + 1 else 0
  {
    RowHardCount(s, dx, s.range + SoftBorder + 1);
  }

  lemma {:induction false} RowsHardCount(s: Subscription, hx: int)
    requires s.range >= 0
    ensures HardCount(Rows(s, hx)) == Clip(hx, s.range) * (2 * s.range + 1)
    decreases hx + s.range + SoftBorder
  {
    var w, d := 2 * s.range + 1, Clip(hx, s.range);
    if hx > -s.range - SoftBorder {
      var prev, row := Rows(s, hx - 1), Row(s, hx - 1, s.range + SoftBorder + 1);
      RowsHardCount(s, hx - 1);
      FullRowHardCount(s, hx - 1);
      assert HardCount(Rows(s, hx)) == HardCount(prev) + HardCount(row) by {
        assert Rows(s, hx) == prev + row;
        HardCountAppend(prev, row);
      }
      var c := Clip(hx - 1, s.range);
      var inRow := -s.range <= hx - 1 <= s.range;
      assert d == if inRow then c + 1 else c;
      MulStep(HardCount(prev), HardCount(row), c, d, w, inRow);
    } else {
      assert Rows(s, hx) == [];
      MulStep(0, 0, 0, d, w, false);
    }
  }

  lemma MulStep(a: int, b: int, c: int, d: int, w: int, step: bool)
    requires a == c * w && b == (if step then w else 0) && d == (if step then c + 1 else c)
    ensures a + b == d * w
  {
  }

  /** Of the (2r+3)^2 visits of a walk, exactly (2r+1)^2 lie in the hard square. */
  lemma VisitsHardCount(s: Subscription)
    requires s.range >= 0
    ensures |Visits(s)| == (2 * s.range + 3) * (2 * s.range + 3)
    ensures HardCount(Visits(s)) == (2 * s.range + 1) * (2 * s.range + 1)
  {
    VisitsLength(s);
    RowsHardCount(s, s.range + SoftBorder + 1);
  }

  /** A key a walk visits has at least one hit. */
  lemma {:induction false} SoftHitsPositive(vs: seq<Visit>, i: nat)
    requires i < |vs|
    ensures SoftHits(vs, vs[i].key) > 0
    decreases |vs|
  {
    if i < |vs| - 1 {
      var pre := vs[..|vs| - 1];
      assert pre[i] == vs[i];
      SoftHitsPositive(pre, i);
    }
  }

  // ---------------------------------------------------------------------
  // Keys that Unsubscribe needs and keeps.

  /** Unsubscribe only removes records, and a completed call found a record
      for every column of its walk: a call over a missing key fails. */
  lemma {:induction false} UnsubscribeNeedsKeys(m: References, vs: seq<Visit>)
    ensures UnsubscribeAll(m, vs).refs.Keys <= m.Keys
    ensures UnsubscribeAll(m, vs).ok ==> KeysOf(vs) <= m.Keys
  {
    if vs != [] {
      var pre, v := vs[..|vs| - 1], vs[|vs| - 1];
      UnsubscribeNeedsKeys(m, pre);
      var p := UnsubscribeAll(m, pre);
      if UnsubscribeAll(m, vs).ok {
        forall k | k in KeysOf(vs) ensures k in m {
          var i :| 0 <= i < |vs| && vs[i].key == k;
          if i < |pre| {
            assert pre[i] == vs[i];
          }
        }
      }
    }
  }

  /** An Unsubscribe whose walk finds none of its columns fails at its first
      visit and leaves the ledger as it was. */
  lemma {:induction false} UnsubscribeAllMissing(m: References, vs: seq<Visit>)
    requires vs != []
    requires forall i | 0 <= i < |vs| :: vs[i].key !in m
    ensures UnsubscribeAll(m, vs) == Unsubscribed(m, false)
  {
    var pre := vs[..|vs| - 1];
    if pre != [] {
      forall i | 0 <= i < |pre| ensures pre[i].key !in m {
        assert pre[i] == vs[i];
      }
      UnsubscribeAllMissing(m, pre);
    }
  }

  /** A key no visit reaches has no hits. */
  lemma {:induction false} SoftHitsUnvisited(vs: seq<Visit>, k: PlanetIndex2)
    requires forall i | 0 <= i < |vs| :: vs[i].key != k
    ensures SoftHits(vs, k) == 0
  {
    if vs != [] {
      var pre := vs[..|vs| - 1];
      forall i | 0 <= i < |pre| ensures pre[i].key != k {
        assert pre[i] == vs[i];
      }
      SoftHitsUnvisited(pre, k);
    }
  }

  /** Subscribe on an empty ledger creates records only on the planet of the
      subscription. */
  lemma SubscribeOnEmptyPlanet(s: Subscription, k: PlanetIndex2)
    requires k.planet != s.planet.id
    ensures k !in SubscribeAll(map[], Visits(s))
  {
    VisitsShape(s);
    SoftHitsUnvisited(Visits(s), k);
    SubscribeAllAt(map[], Visits(s), k);
  }

  /** A record that is not ToLoad survives any Unsubscribe and never comes
      out of it ToLoad; in particular records the worker holds (Loading,
      Unloading, CancelUnload) are never removed. */
  lemma {:induction false} UnsubscribeKeepsClaimed(m: References, vs: seq<Visit>, k: PlanetIndex2)
    requires WellKeyed(m)
    requires k in m && m[k].state != ToLoad
    ensures var r := UnsubscribeAll(m, vs).refs;
      WellKeyed(r) && k in r && r[k].state != ToLoad
  {
    if vs != [] {
      var pre := vs[..|vs| - 1];
      UnsubscribeKeepsClaimed(m, pre, k);
    }
  }

  // ---------------------------------------------------------------------
  // Walk prefixes: the loops of the cache stop part-way only on failure.

  lemma {:induction false} RowPrefix(s: Subscription, dx: int, a: int, b: int)
    requires a <= b
    ensures Row(s, dx, a) <= Row(s, dx, b)
    decreases b - a
  {
    if a < b {
      RowPrefix(s, dx, a, b - 1);
      if b > -s.range - SoftBorder {
        assert Row(s, dx, b - 1) <= Row(s, dx, b);
      }
    }
  }

  lemma {:induction false} RowsPrefix(s: Subscription, a: int, b: int)
    requires a <= b
    ensures Rows(s, a) <= Rows(s, b)
    decreases b - a
  {
    if a < b {
      RowsPrefix(s, a, b - 1);
      if b > -s.range - SoftBorder {
        assert Rows(s, b - 1) <= Rows(s, b);
      }
    }
  }

  /** The visits done before the loop body at (x, y) are a prefix of the walk. */
  lemma WalkPrefix(s: Subscription, x: int, y: int)
    requires -s.range - SoftBorder <= x <= s.range + SoftBorder
    requires y <= s.range + SoftBorder + 1
    ensures Rows(s, x) + Row(s, x, y) <= Visits(s)
  {
    var pre, row, full := Rows(s, x), Row(s, x, y), Row(s, x, s.range + SoftBorder + 1);
    RowPrefix(s, x, y, s.range + SoftBorder + 1);
    PrefixExtend(pre, row, full);
    RowStep(s, x);
    RowsPrefix(s, x + 1, s.range + SoftBorder + 1);
    PrefixTransitive(pre + row, Rows(s, x + 1), Visits(s));
  }

  lemma PrefixExtend(p: seq<Visit>, a: seq<Visit>, b: seq<Visit>)
    requires a <= b
    ensures p + a <= p + b
  {
    assert p + a == (p + b)[..|p + a|];
  }

  lemma PrefixTransitive(a: seq<Visit>, b: seq<Visit>, c: seq<Visit>)
    requires a <= b && b <= c
    ensures a <= c
  {
    assert a == c[..|a|];
  }

  /** Once Unsubscribe has failed, the rest of the walk changes nothing. */
  lemma {:induction false} UnsubscribeFailSticks(m: References, a: seq<Visit>, b: seq<Visit>)
    requires !UnsubscribeAll(m, a).ok
    ensures UnsubscribeAll(m, a + b) == UnsubscribeAll(m, a)
    decreases |b|
  {
    if b == [] {
      assert a + b == a;
    } else {
      assert (a + b)[..|a + b| - 1] == a + b[..|b| - 1];
      UnsubscribeFailSticks(m, a, b[..|b| - 1]);
    }
  }

  // ---------------------------------------------------------------------
  // One loop step at a time.

  /** The walk up to (x, y+1) is the walk up to (x, y) and the visit of (x, y). */
  lemma WalkStep(s: Subscription, x: int, y: int)
    requires x >= -s.range - SoftBorder && y >= -s.range - SoftBorder
    ensures Rows(s, x) + Row(s, x, y + 1) == Rows(s, x) + Row(s, x, y) + [VisitAt(s, x, y)]
  {
  }

  /** After the last visit of row x, the walk up to row x+1. */
  lemma RowStep(s: Subscription, x: int)
    requires x >= -s.range - SoftBorder
    ensures Rows(s, x + 1) == Rows(s, x) + Row(s, x, s.range + SoftBorder + 1)
    ensures Rows(s, x) + Row(s, x, -s.range - SoftBorder) == Rows(s, x)
  {
  }

  lemma SubscribeAllSnoc(m: References, a: seq<Visit>, v: Visit)
    ensures SubscribeAll(m, a + [v]) == SubscribeAt(SubscribeAll(m, a), v)
  {
    assert (a + [v])[..|a|] == a;
  }

  /** One more visit of Unsubscribe after a prefix that completed with ledger r. */
  lemma UnsubscribeStep(m: References, a: seq<Visit>, v: Visit, r: References)
    requires UnsubscribeAll(m, a) == Unsubscribed(r, true)
    ensures v.key in r ==> UnsubscribeAll(m, a + [v]) == Unsubscribed(UnsubscribeAt(r, v), true)
    ensures v.key !in r ==> !UnsubscribeAll(m, a + [v]).ok
  {
    assert (a + [v])[..|a|] == a;
  }

  /** Unsubscribe failing at the visit of (x, y) fails as a whole, with the
      ledger as that visit left it. */
  lemma UnsubscribeAbort(m: References, s: Subscription, x: int, y: int)
    requires -s.range - SoftBorder <= x <= s.range + SoftBorder
    requires y <= s.range + SoftBorder
    requires !UnsubscribeAll(m, Rows(s, x) + Row(s, x, y + 1)).ok
    ensures UnsubscribeAll(m, Visits(s)) == UnsubscribeAll(m, Rows(s, x) + Row(s, x, y + 1))
  {
    var done := Rows(s, x) + Row(s, x, y + 1);
    WalkPrefix(s, x, y + 1);
    UnsubscribeFailSticks(m, done, Visits(s)[|done|..]);
    assert done + Visits(s)[|done|..] == Visits(s);
  }

  /** The visit of (x, y) after the walk up to it completed with ledger r:
      it either finds its record and the walk goes on, or fails and so does
      the whole call, leaving r. */
  lemma UnsubscribeWalkStep(m: References, s: Subscription, x: int, y: int, r: References)
    requires -s.range - SoftBorder <= x <= s.range + SoftBorder
    requires -s.range - SoftBorder <= y <= s.range + SoftBorder
    requires UnsubscribeAll(m, Rows(s, x) + Row(s, x, y)) == Unsubscribed(r, true)
    ensures var v := VisitAt(s, x, y);
      && (v.key in r ==> UnsubscribeAll(m, Rows(s, x) + Row(s, x, y + 1)) == Unsubscribed(UnsubscribeAt(r, v), true))
      && (v.key !in r ==> UnsubscribeAll(m, Visits(s)) == Unsubscribed(r, false))
  {
    var a, v := Rows(s, x) + Row(s, x, y), VisitAt(s, x, y);
    WalkStep(s, x, y);
    UnsubscribeStep(m, a, v, r);
    if v.key !in r {
      assert UnsubscribeAll(m, a + [v]) == Unsubscribed(r, false) by {
        assert (a + [v])[..|a|] == a;
      }
      UnsubscribeAbort(m, s, x, y);
    }
  }

  // ---------------------------------------------------------------------
  // Moving a subscription to another column (the column-change hook of a
  // permanent entity) and the total of soft references.

  /** Unsubscribe the old window and, if that completed, subscribe the new
      one; a failed unsubscribe stops before the subscribe. */
  function Move(m: References, from: Subscription, to: Subscription): Unsubscribed {
    var u := UnsubscribeAll(m, Visits(from));
    if u.ok then Unsubscribed(SubscribeAll(u.refs, Visits(to)), true) else u
  }

  /** A balanced ledger covers the walk of each live subscription. */
  lemma BalancedCovers(m: References, subs: seq<Subscription>, i: nat)
    requires Balanced(m, subs) && i < |subs|
    ensures Covered(m, Visits(subs[i]))
  {
    forall k ensures SoftHits(Visits(subs[i]), k) <= Soft0(m, k) {
      SumsRemove(subs, i, k);
      assert Soft0(m, k) == SoftSum(subs, k);
    }
  }

  /** Moving a live subscription completes and keeps the ledger balanced,
      with the moved subscription live in place of the old one. */
  lemma MoveKeepsBalance(m: References, subs: seq<Subscription>, i: nat, to: Subscription)
    requires Balanced(m, subs) && i < |subs|
    ensures var r := Move(m, subs[i], to);
      r.ok && Balanced(r.refs, subs[..i] + subs[i + 1..] + [to])
  {
    UnsubscribeKeepsBalance(m, subs, i);
    SubscribeKeepsBalance(UnsubscribeAll(m, Visits(subs[i])).refs, subs[..i] + subs[i + 1..], to);
  }

  /** Some key of a non-empty ledger. */
  ghost function AnyKey(m: References): (k: PlanetIndex2)
    requires m != map[]
    ensures k in m
  {
    var k :| k in m; k
  }

  /** The soft references held across the whole ledger. */
  ghost function SoftTotal(m: References): int
    decreases |m|
  {
    if m == map[] then 0
    else
      var k := AnyKey(m);
      assert |(m - {k}).Keys| < |m.Keys| by {
        assert m.Keys == (m - {k}).Keys + {k};
      }
      m[k].soft + SoftTotal(m - {k})
  }

  /** The total splits off any one record. */
  lemma {:induction false} SoftTotalRemove(m: References, k: PlanetIndex2)
    requires k in m
    ensures SoftTotal(m) == m[k].soft + SoftTotal(m - {k})
    decreases |m|
  {
    var j := AnyKey(m);
    assert m.Keys == (m - {j}).Keys + {j};
    if j != k {
      assert m.Keys == (m - {k}).Keys + {k};
      SoftTotalRemove(m - {j}, k);
      SoftTotalRemove(m - {k}, j);
      assert m - {j} - {k} == m - {k} - {j};
    }
  }

  /** Replacing or adding one record changes the total by the difference. */
  lemma SoftTotalUpdate(m: References, k: PlanetIndex2, info: SubscriptionInfo)
    ensures SoftTotal(m[k := info]) == SoftTotal(m) - Soft0(m, k) + info.soft
  {
    assert m[k := info] - {k} == m - {k};
    SoftTotalRemove(m[k := info], k);
    if k in m {
      SoftTotalRemove(m, k);
    } else {
      assert m - {k} == m;
    }
  }

  /** Subscribe adds one soft reference per visit. */
  lemma {:induction false} SubscribeTotal(m: References, vs: seq<Visit>)
    ensures SoftTotal(SubscribeAll(m, vs)) == SoftTotal(m) + |vs|
  {
    if vs != [] {
      var pre, v := vs[..|vs| - 1], vs[|vs| - 1];
      var p := SubscribeAll(m, pre);
      SubscribeTotal(m, pre);
      var base := SubscribedBase(p, v);
      SoftTotalUpdate(p, v.key, base.(hard := base.hard + (if v.hard then 1 else 0), soft := base.soft + 1));
    }
  }

  /** A covered Unsubscribe releases one soft reference per visit. */
  lemma {:induction false} UnsubscribeTotal(m: References, vs: seq<Visit>)
    requires WellKeyed(m) && Covered(m, vs)
    ensures SoftTotal(UnsubscribeAll(m, vs).refs) == SoftTotal(m) - |vs|
  {
    if vs != [] {
      var pre, v := vs[..|vs| - 1], vs[|vs| - 1];
      assert Covered(m, pre) by {
        forall k' ensures SoftHits(pre, k') <= Soft0(m, k') {
          assert SoftHits(pre, k') <= SoftHits(vs, k');
        }
      }
      UnsubscribeTotal(m, pre);
      UnsubscribeAllAt(m, pre, v.key);
      var p := UnsubscribeAll(m, pre);
      assert SoftHits(vs, v.key) <= Soft0(m, v.key);
      assert v.key in p.refs && p.refs[v.key].soft >= 1;
      assert UnsubscribeAll(m, vs) == Unsubscribed(UnsubscribeAt(p.refs, v), true);
      UnsubscribeAtTotal(p.refs, v);
    }
  }

  /** One visit of Unsubscribe on a record that holds a soft reference
      drops the total by one. */
  lemma UnsubscribeAtTotal(r: References, v: Visit)
    requires v.key in r && r[v.key].position == v.key && r[v.key].soft >= 1
    ensures SoftTotal(UnsubscribeAt(r, v)) == SoftTotal(r) - 1
  {
    var info := r[v.key];
    var dec := info.(hard := info.hard - (if v.hard then 1 else 0), soft := info.soft - 1);
    if dec.soft > 0 {
      SoftTotalUpdate(r, v.key, dec);
    } else {
      match Lost(dec.state)
      case None =>
        SoftTotalUpdate(r, v.key, dec);
        SoftTotalRemove(r[v.key := dec], v.key);
        assert r[v.key := dec] - {v.key} == r - {v.key};
      case Some(st) =>
        SoftTotalUpdate(r, v.key, dec.(state := st));
    }
  }

  /** Moving a live subscription to a window of the same range leaves the
      total of soft references where it was. */
  lemma MoveKeepsTotal(m: References, subs: seq<Subscription>, i: nat, to: Subscription)
    requires Balanced(m, subs) && i < |subs| && to.range == subs[i].range
    ensures SoftTotal(Move(m, subs[i], to).refs) == SoftTotal(m)
  {
    var from := subs[i];
    BalancedCovers(m, subs, i);
    assert WellKeyed(m);
    var u := UnsubscribeAll(m, Visits(from));
    UnsubscribeAllAt(m, Visits(from), PlanetIndex2(0, Index2(0, 0)));
    UnsubscribeTotal(m, Visits(from));
    SubscribeTotal(u.refs, Visits(to));
    VisitsLength(from);
    VisitsLength(to);
  }
}
