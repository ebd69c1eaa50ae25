/** The reaper's distributed lock, with time: SET key id PX 15000 NX to acquire, and
    a compare-and-delete script to release. While a scan is younger than the TTL its
    monitor owns the lock, so scans overlap only if one overran, and an overrun scan
    never releases somebody else's lock. */
module ReaperLock {
  import opened Contracts

  const REAPER_LOCK_TTL_MS: nat := 15000

  /** The key in Redis: a value, and the time at which it is gone. */
  datatype Entry = Entry(id: nat, expires: nat)

  /** GET: an expired key reads as absent. */
  function Value(key: Option<Entry>, now: nat): Option<nat> {
    if key.Some? && now < key.value.expires then Some(key.value.id) else None
  }

  class LockKey {
    var entry: Option<Entry>

    constructor ()
      ensures entry == None
    {
      entry := None;
    }

    method SetNxPx(id: nat, now: nat) returns (acquired: bool)
      modifies this
      ensures acquired <==> Value(old(entry), now).None?
      ensures entry == if acquired then Some(Entry(id, now + REAPER_LOCK_TTL_MS)) else old(entry)
    {
      acquired := Value(entry, now).None?;
      if acquired { entry := Some(Entry(id, now + REAPER_LOCK_TTL_MS)); }
    }

    method DeleteIfOwned(id: nat, now: nat) returns (deleted: bool)
      modifies this
      ensures deleted <==> Value(old(entry), now) == Some(id)
      ensures Value(entry, now) == if deleted then None else Value(old(entry), now)
      ensures entry == if deleted then None else old(entry)
    {
      deleted := Value(entry, now) == Some(id);
      if deleted { entry := None; }
    }
  }

  // ── monitors sharing the key ─────────────────────────────────────────────

  type ScanId = nat

  /** A scan under way: whose it is, the random id it locked with, and since when. */
  datatype Scan = Scan(monitor: MonitorId, id: nat, since: nat)

  /** A monitor starts its scans on an interval and does not wait for the last one,
      so it may have several. used: ids drawn so far; every scan draws a new one. */
  datatype Cluster = Cluster(now: nat, key: Option<Entry>, scans: map<ScanId, Scan>, used: set<nat>)

  datatype ClusterEvent =
    | Tick(ms: nat)
    | Acquire(k: ScanId, m: MonitorId, id: nat)
    | Release(k: ScanId)
    | Die(m: MonitorId)        // all its scans end without a release

  const UNLOCKED := Cluster(0, None, map[], {})

  predicate ClusterCan(c: Cluster, e: ClusterEvent) {
    match e
    case Tick(_) => true
    case Acquire(k, _, id) => k !in c.scans && id !in c.used
    case Release(k) => k in c.scans
    case Die(_) => true
  }

  function ClusterDo(c: Cluster, e: ClusterEvent): Cluster
    requires ClusterCan(c, e)
  {
    match e
    case Tick(ms) => c.(now := c.now + ms)
    case Acquire(k, m, id) =>
      if Value(c.key, c.now).None? then
        c.(key := Some(Entry(id, c.now + REAPER_LOCK_TTL_MS)),
           scans := c.scans[k := Scan(m, id, c.now)],
           used := c.used + {id})
      else c.(used := c.used + {id})
    case Release(k) =>
      c.(key := if Value(c.key, c.now) == Some(c.scans[k].id) then None else c.key, scans := c.scans - {k})
    case Die(m) => c.(scans := map k | k in c.scans && c.scans[k].monitor != m :: c.scans[k])
  }

  ghost predicate ClusterRun(es: seq<ClusterEvent>)
    decreases |es|, 0
  {
    es == [] || (ClusterRun(es[..|es| - 1]) && ClusterCan(ClusterAfter(es[..|es| - 1]), es[|es| - 1]))
  }

  ghost function ClusterAfter(es: seq<ClusterEvent>): Cluster
    requires ClusterRun(es)
    decreases |es|, 1
  {
    if es == [] then UNLOCKED else ClusterDo(ClusterAfter(es[..|es| - 1]), es[|es| - 1])
  }

  /** The scan is within its lease. */
  predicate Leased(c: Cluster, k: ScanId) {
    k in c.scans && c.now < c.scans[k].since + REAPER_LOCK_TTL_MS
  }

  ghost predicate ClusterInv(c: Cluster) {
    && (forall k :: k in c.scans ==> c.scans[k].id in c.used && c.scans[k].since <= c.now)
    && (forall k, l :: k in c.scans && l in c.scans && k != l ==> c.scans[k].id != c.scans[l].id)
    && (c.key.Some? ==> c.key.value.id in c.used)
    && (forall k :: Leased(c, k) ==> c.key == Some(Entry(c.scans[k].id, c.scans[k].since + REAPER_LOCK_TTL_MS)))
  }

  lemma ClusterStep(c: Cluster, e: ClusterEvent)
    requires ClusterInv(c) && ClusterCan(c, e)
    ensures ClusterInv(ClusterDo(c, e))
  {
    var c' := ClusterDo(c, e);
    forall k | Leased(c', k)
      ensures c'.key == Some(Entry(c'.scans[k].id, c'.scans[k].since + REAPER_LOCK_TTL_MS))
    {
      assert k in c.scans ==> Leased(c, k);
    }
  }

  lemma {:induction false} ClusterRunInv(es: seq<ClusterEvent>)
    requires ClusterRun(es)
    ensures ClusterInv(ClusterAfter(es))
    decreases |es|
  {
    if es != [] {
      ClusterRunInv(es[..|es| - 1]);
      ClusterStep(ClusterAfter(es[..|es| - 1]), es[|es| - 1]);
    }
  }

  /** While a scan is younger than the TTL, the lock is its own. */
  lemma LockIsOwn(es: seq<ClusterEvent>, k: ScanId)
    requires ClusterRun(es) && Leased(ClusterAfter(es), k)
    ensures Value(ClusterAfter(es).key, ClusterAfter(es).now) == Some(ClusterAfter(es).scans[k].id)
  {
    ClusterRunInv(es);
  }

  /** Two scans at once, be they of two monitors or of one: at least one of them has
      overrun the TTL. */
  lemma OverlapMeansOverrun(es: seq<ClusterEvent>, k: ScanId, l: ScanId)
    requires ClusterRun(es) && k != l && k in ClusterAfter(es).scans && l in ClusterAfter(es).scans
    ensures !Leased(ClusterAfter(es), k) || !Leased(ClusterAfter(es), l)
  {
    ClusterRunInv(es);
  }

  /** Nobody acquires the lock while a leased scan runs. */
  lemma LeaseExcludes(es: seq<ClusterEvent>, k: ScanId, l: ScanId, m: MonitorId, id: nat)
    requires ClusterRun(es) && Leased(ClusterAfter(es), k) && ClusterCan(ClusterAfter(es), Acquire(l, m, id))
    ensures ClusterDo(ClusterAfter(es), Acquire(l, m, id)).scans == ClusterAfter(es).scans
  {
    LockIsOwn(es, k);
  }

  /** The release at the end of a scan, overrun or not, leaves every other scan's
      lock in place. */
  lemma ReleaseSparesOthers(es: seq<ClusterEvent>, k: ScanId, l: ScanId)
    requires ClusterRun(es) && k != l && k in ClusterAfter(es).scans && Leased(ClusterAfter(es), l)
    ensures
      var c := ClusterDo(ClusterAfter(es), Release(k));
      Leased(c, l) && Value(c.key, c.now) == Some(c.scans[l].id)
  {
    ClusterRunInv(es);
  }

  lemma Extend(es: seq<ClusterEvent>, e: ClusterEvent) returns (es': seq<ClusterEvent>)
    requires ClusterRun(es) && ClusterCan(ClusterAfter(es), e)
    ensures ClusterRun(es') && ClusterAfter(es') == ClusterDo(ClusterAfter(es), e)
  {
    es' := es + [e];
    assert es'[..|es'| - 1] == es;
  }

  /** Overrunning really does let a second scan in, even one of the same monitor. */
  lemma OverrunOverlaps(k: ScanId, l: ScanId, m: MonitorId, n: MonitorId) returns (es: seq<ClusterEvent>)
    requires k != l
    ensures ClusterRun(es) && k in ClusterAfter(es).scans && l in ClusterAfter(es).scans
    ensures ClusterAfter(es).scans[k].monitor == m && ClusterAfter(es).scans[l].monitor == n
  {
    es := Extend([], Acquire(k, m, 0));
    es := Extend(es, Tick(REAPER_LOCK_TTL_MS));
    es := Extend(es, Acquire(l, n, 1));
  }
}
