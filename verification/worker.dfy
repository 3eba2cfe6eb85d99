/** The background loader of the entity cache, as the four atomic steps of
    one pass of its loop: claim a region to load, commit the load, claim a
    region to unload, commit the unload. Between steps the worker remembers
    the region it holds (the loop's local `toload` or `tounload`); that is
    the Job. Subscribe and Unsubscribe may run between any two steps. */
module Loader {
  import opened Wrappers
  import opened Geometry
  import opened Ledger

  /** The region the worker holds between a claim and its commit. */
  datatype Job = Idle | Load(key: PlanetIndex2) | Unload(key: PlanetIndex2)

  /** Worker and ledger agree: a Loading record is the one the worker is
      loading, an Unloading or CancelUnload record the one it is saving,
      and the record of the held region is still there, in a state the
      commit expects. */
  ghost predicate WorkerConsistent(m: References, job: Job) {
    && (forall k | k in m && m[k].state == Loading :: job == Load(k))
    && (forall k | k in m && UnloadInFlight(m[k].state) :: job == Unload(k))
    && (job.Load? ==> job.key in m && m[job.key].state in {Loading, Ready, ToUnload})
    && (job.Unload? ==> job.key in m && UnloadInFlight(m[job.key].state))
  }

  /** Some record is in state st. */
  ghost predicate HasState(m: References, st: LoaderState) {
    exists k | k in m :: m[k].state == st
  }

  /** The record of k with its state replaced; nothing else changes. */
  function SetState(m: References, k: PlanetIndex2, st: LoaderState): (r: References)
    requires k in m
    ensures r.Keys == m.Keys
    ensures r[k] == m[k].(state := st)
    ensures forall k' | k' in m && k' != k :: r[k'] == m[k']
  {
    m[k := m[k].(state := st)]
  }

  /** Committing a load: a region still Loading becomes Ready; one whose
      interest was lost while it loaded (ToUnload), or regained (Ready),
      keeps its state. */
  function CommitLoad(m: References, k: PlanetIndex2): (r: References)
    requires k in m
    ensures r.Keys == m.Keys
    ensures r[k].state == (if m[k].state == Loading then Ready else m[k].state)
    ensures forall k' | k' in m :: r[k'].soft == m[k'].soft && r[k'].hard == m[k'].hard
    ensures forall k' | k' in m && k' != k :: r[k'] == m[k']
  {
    if m[k].state == Loading then SetState(m, k, Ready) else m
  }

  /** Committing a load as the loader loop does it: Ready whatever the state. */
  function CommitLoadAsWritten(m: References, k: PlanetIndex2): (r: References)
    requires k in m
    ensures r.Keys == m.Keys && r[k].state == Ready
    ensures r[k] == m[k].(state := Ready)
    ensures forall k' | k' in m && k' != k :: r[k'] == m[k']
  {
    SetState(m, k, Ready)
  }

  /** Committing an unload: a region re-subscribed while it was saved
      (CancelUnload) becomes Ready, otherwise its record is removed. */
  function CommitUnload(m: References, k: PlanetIndex2): (r: References)
    requires k in m
    requires WellKeyed(m)
    ensures m[k].state == CancelUnload ==> r == SetState(m, k, Ready)
    ensures m[k].state != CancelUnload ==> k !in r && r.Keys == m.Keys - {k}
    ensures forall k' | k' in m && k' != k :: k' in r && r[k'] == m[k']
  {
    if m[k].state == CancelUnload then SetState(m, k, Ready) else m - {m[k].position}
  }

  // ---------------------------------------------------------------------
  // Subscribe and Unsubscribe keep the worker consistent, whatever the caller.

  lemma SubscribeAtConsistent(m: References, v: Visit, job: Job)
    requires WellKeyed(m) && WorkerConsistent(m, job)
    ensures WellKeyed(SubscribeAt(m, v)) && WorkerConsistent(SubscribeAt(m, v), job)
  {
  }

  lemma UnsubscribeAtConsistent(m: References, v: Visit, job: Job)
    requires WellKeyed(m) && WorkerConsistent(m, job)
    requires v.key in m
    ensures WellKeyed(UnsubscribeAt(m, v)) && WorkerConsistent(UnsubscribeAt(m, v), job)
  {
  }

  // ---------------------------------------------------------------------
  // The four steps keep the worker consistent and the ledger healthy and balanced.

  /** Only the state of one record changed, between two states on the same
      side of Wanted: health and balance carry over. */
  lemma SetStateKeepsBalance(m: References, subs: seq<Subscription>, k: PlanetIndex2, st: LoaderState)
    requires k in m
    requires Balanced(m, subs)
    requires Wanted(st) == Wanted(m[k].state)
    ensures Balanced(SetState(m, k, st), subs)
  {
    var r := SetState(m, k, st);
    forall k' ensures Soft0(r, k') == SoftSum(subs, k') && Hard0(r, k') == HardSum(subs, k') {
      assert Soft0(m, k') == SoftSum(subs, k') && Hard0(m, k') == HardSum(subs, k');
    }
  }

  /** Claiming a ToLoad region marks it Loading and gives the worker a Load job. */
  lemma ClaimLoadKeeps(m: References, subs: seq<Subscription>, k: PlanetIndex2)
    requires WellKeyed(m) && WorkerConsistent(m, Idle)
    requires k in m && m[k].state == ToLoad
    ensures WellKeyed(SetState(m, k, Loading))
    ensures WorkerConsistent(SetState(m, k, Loading), Load(k))
    ensures Balanced(m, subs) ==> Balanced(SetState(m, k, Loading), subs)
  {
    if Balanced(m, subs) {
      SetStateKeepsBalance(m, subs, k, Loading);
    }
  }

  /** The load commit as written keeps the records under their keys and
      every count equal to what the live subscriptions hold: it breaks
      only the health half of Balanced (see LoadCommitAfterUnsubscribe). */
  lemma CommitLoadAsWrittenKeepsCounts(m: References, subs: seq<Subscription>, k: PlanetIndex2)
    requires k in m
    requires Balanced(m, subs)
    ensures WellKeyed(CommitLoadAsWritten(m, k))
    ensures forall k' :: Soft0(CommitLoadAsWritten(m, k), k') == SoftSum(subs, k')
                      && Hard0(CommitLoadAsWritten(m, k), k') == HardSum(subs, k')
  {
    var r := CommitLoadAsWritten(m, k);
    forall k' ensures Soft0(r, k') == SoftSum(subs, k') && Hard0(r, k') == HardSum(subs, k') {
      assert Soft0(m, k') == SoftSum(subs, k') && Hard0(m, k') == HardSum(subs, k');
    }
  }

  /** The held region is still in the ledger when the load commits, and the
      commit releases the worker. */
  lemma CommitLoadKeeps(m: References, subs: seq<Subscription>, k: PlanetIndex2)
    requires WellKeyed(m) && WorkerConsistent(m, Load(k))
    ensures k in m
    ensures WellKeyed(CommitLoad(m, k)) && WorkerConsistent(CommitLoad(m, k), Idle)
    ensures Balanced(m, subs) ==> Balanced(CommitLoad(m, k), subs)
  {
    if Balanced(m, subs) && m[k].state == Loading {
      SetStateKeepsBalance(m, subs, k, Ready);
    }
  }

  /** Claiming a ToUnload region marks it Unloading and gives the worker an Unload job. */
  lemma ClaimUnloadKeeps(m: References, subs: seq<Subscription>, k: PlanetIndex2)
    requires WellKeyed(m) && WorkerConsistent(m, Idle)
    requires k in m && m[k].state == ToUnload
    ensures WellKeyed(SetState(m, k, Unloading))
    ensures WorkerConsistent(SetState(m, k, Unloading), Unload(k))
    ensures Balanced(m, subs) ==> Balanced(SetState(m, k, Unloading), subs)
  {
    if Balanced(m, subs) {
      SetStateKeepsBalance(m, subs, k, Unloading);
    }
  }

  /** The held region is still in the ledger when the unload commits; a
      removed record held no reference, so the balance carries over. */
  lemma CommitUnloadKeeps(m: References, subs: seq<Subscription>, k: PlanetIndex2)
    requires WellKeyed(m) && WorkerConsistent(m, Unload(k))
    ensures k in m
    ensures WellKeyed(CommitUnload(m, k)) && WorkerConsistent(CommitUnload(m, k), Idle)
    ensures Balanced(m, subs) ==> Balanced(CommitUnload(m, k), subs)
  {
    if Balanced(m, subs) {
      if m[k].state == CancelUnload {
        SetStateKeepsBalance(m, subs, k, Ready);
      } else {
        var r := CommitUnload(m, k);
        forall k' ensures Soft0(r, k') == SoftSum(subs, k') && Hard0(r, k') == HardSum(subs, k') {
          assert Soft0(m, k') == SoftSum(subs, k') && Hard0(m, k') == HardSum(subs, k');
          HardSumLeSoft(subs, k');
        }
      }
    }
  }

  // ---------------------------------------------------------------------
  // A load that commits after its region lost interest.

  /** The first region of a walk, claimed by the worker right after one
      observer subscribed on an empty ledger. */
  function ClaimedAfterSubscribe(s: Subscription): (m: References)
    requires s.range >= -1
    ensures Balanced(m, [s])
    ensures Visits(s)[0].key in m && m[Visits(s)[0].key].state == Loading
    ensures WellKeyed(m) && WorkerConsistent(m, Load(Visits(s)[0].key))
  {
    var vs := Visits(s);
    var k := vs[0].key;
    EmptyBalanced();
    SubscribeKeepsBalance(map[], [], s);
    assert [] + [s] == [s];
    var m0 := SubscribeAll(map[], vs);
    SoftHitsPositive(vs, 0);
    SubscribeAllAt(map[], vs, k);
    SubscribeFoldConsistent(map[], vs, Idle);
    ClaimLoadKeeps(m0, [s], k);
    SetState(m0, k, Loading)
  }

  /** The same ledger after the observer unsubscribed again, before the load
      commits: the region lost its last reference and is ToUnload. */
  lemma UnsubscribeDuringLoad(s: Subscription)
    requires s.range >= -1
    ensures var k, u := Visits(s)[0].key, UnsubscribeAll(ClaimedAfterSubscribe(s), Visits(s));
      && u.ok && Balanced(u.refs, [])
      && k in u.refs && u.refs[k].state == ToUnload && u.refs[k].soft == 0
      && WellKeyed(u.refs) && WorkerConsistent(u.refs, Load(k))
  {
    var vs, m1 := Visits(s), ClaimedAfterSubscribe(s);
    var k := vs[0].key;
    UnsubscribeKeepsBalance(m1, [s], 0);
    assert [s][..0] + [s][1..] == [];
    assert SoftSum([s], k) == SoftHits(vs, k) by {
      assert [s][..0] == [];
    }
    assert Soft0(m1, k) == SoftSum([s], k);
    SoftHitsPositive(vs, 0);
    UnsubscribeAllAt(m1, vs, k);
    UnsubscribeFoldConsistent(m1, vs, Load(k));
  }

  /** Committed as the loader loop does it, the region of
      UnsubscribeDuringLoad ends up Ready with no reference holding it:
      neither claim will pick it (they look for ToLoad and ToUnload), so it
      stays resident until some later walk covers it and lets it go again.
      The corrected commit keeps it ToUnload, and the ledger balanced. */
  lemma LoadCommitAfterUnsubscribe(s: Subscription)
    requires s.range >= -1
    ensures var k, u := Visits(s)[0].key, UnsubscribeAll(ClaimedAfterSubscribe(s), Visits(s));
      && k in u.refs
      && CommitLoadAsWritten(u.refs, k)[k].state == Ready
      && CommitLoadAsWritten(u.refs, k)[k].soft == 0
      && !Healthy(CommitLoadAsWritten(u.refs, k))
      && CommitLoad(u.refs, k)[k].state == ToUnload
      && Balanced(CommitLoad(u.refs, k), [])
  {
    var k, u := Visits(s)[0].key, UnsubscribeAll(ClaimedAfterSubscribe(s), Visits(s));
    UnsubscribeDuringLoad(s);
    CommitLoadKeeps(u.refs, [], k);
  }

  /** Any Unsubscribe, complete or not, keeps the worker consistent. */
  lemma {:induction false} UnsubscribeFoldConsistent(m: References, vs: seq<Visit>, job: Job)
    requires WellKeyed(m) && WorkerConsistent(m, job)
    ensures WellKeyed(UnsubscribeAll(m, vs).refs) && WorkerConsistent(UnsubscribeAll(m, vs).refs, job)
  {
    if vs != [] {
      var pre, v := vs[..|vs| - 1], vs[|vs| - 1];
      UnsubscribeFoldConsistent(m, pre, job);
      var p := UnsubscribeAll(m, pre);
      if p.ok && v.key in p.refs {
        UnsubscribeAtConsistent(p.refs, v, job);
      }
    }
  }

  /** Any Subscribe keeps the worker consistent. */
  lemma {:induction false} SubscribeFoldConsistent(m: References, vs: seq<Visit>, job: Job)
    requires WellKeyed(m) && WorkerConsistent(m, job)
    ensures WellKeyed(SubscribeAll(m, vs)) && WorkerConsistent(SubscribeAll(m, vs), job)
  {
    if vs != [] {
      SubscribeFoldConsistent(m, vs[..|vs| - 1], job);
      SubscribeAtConsistent(SubscribeAll(m, vs[..|vs| - 1]), vs[|vs| - 1], job);
    }
  }
}
