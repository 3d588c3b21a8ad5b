/** The per-database connection pools: opened on demand, evicted least recently used first. */
module ConnPools {

  /**
    The manager's maps: the pool of each database, when each was last asked for, and how many callers
    have picked a pool and not yet heard from it. Pools are numbered as they are opened.
  */
  datatype Pools = Pools(dbs: map<string, nat>, used: map<string, int>, pending: map<string, nat>, serial: nat,
                         closed: set<nat>)

  /** How many connections of each pool are checked out. */
  type Checkouts = map<nat, nat>

  function Count<K>(m: map<K, nat>, k: K): nat {
    if k in m then m[k] else 0
  }

  predicate Busy(p: Pools, out: Checkouts, name: string) {
    Count(p.pending, name) > 0 || (name in p.dbs && Count(out, p.dbs[name]) > 0)
  }

  function Evict(p: Pools, names: set<string>): Pools {
    p.(dbs := p.dbs - names, used := p.used - names, closed := p.closed + set n | n in names && n in p.dbs :: p.dbs[n])
  }

  /** Databases evicted one after the other, each the least recently used idle one at its time. */
  ghost predicate Evictable(p: Pools, out: Checkouts, limit: int, names: set<string>) {
    && names <= p.used.Keys
    && (forall n :: n in names ==> !Busy(p, out, n))
    && (forall n, m :: n in names && m in p.used && m !in names && !Busy(p, out, m) ==> p.used[n] <= p.used[m])
    && (names != {} ==> |p.used.Keys - names| + 1 >= limit)
  }

  /**
    A set of databases that room may be made with: all idle, none used later than an idle one that
    stays, no more than needed, and enough unless all that stay are busy.
  */
  ghost predicate LegalEviction(p: Pools, out: Checkouts, limit: int, names: set<string>) {
    && Evictable(p, out, limit, names)
    && (|p.used.Keys - names| < limit || forall m :: m in p.used && m !in names ==> Busy(p, out, m))
  }

  function Open(p: Pools, name: string): Pools {
    p.(dbs := p.dbs[name := p.serial], serial := p.serial + 1)
  }

  function Pick(p: Pools, name: string, now: int): Pools {
    p.(used := p.used[name := now], pending := p.pending[name := Count(p.pending, name) + 1])
  }

  function Settle(p: Pools, name: string): Pools {
    var left := if Count(p.pending, name) == 0 then 0 else p.pending[name] - 1;
    p.(pending := if left == 0 then p.pending - {name} else p.pending[name := left])
  }

  predicate Keyed(p: Pools) {
    p.dbs.Keys == p.used.Keys && "" !in p.dbs
  }

  class Manager {
    const maxDatabases: int
    var pools: Pools

    constructor (limit: int)
      ensures maxDatabases == limit && pools == Pools(map[], map[], map[], 0, {})
    {
      maxDatabases := limit;
      pools := Pools(map[], map[], map[], 0, {});
    }

    /** The least recently used database that is idle, or "" when every one is busy. */
    method Oldest(out: Checkouts) returns (oldest: string)
      requires Keyed(pools)
      ensures oldest == "" ==> forall n :: n in pools.used ==> Busy(pools, out, n)
      ensures oldest != "" ==> oldest in pools.used && !Busy(pools, out, oldest)
      ensures oldest != "" ==> forall n :: n in pools.used && !Busy(pools, out, n) ==>
        pools.used[oldest] <= pools.used[n]
    {
      oldest := "";
      var oldestT := 0;
      var left := pools.used.Keys;
      while left != {}
        invariant left <= pools.used.Keys
        invariant oldest == "" ==> forall n :: n in pools.used && n !in left ==> Busy(pools, out, n)
        invariant oldest != "" ==> oldest in pools.used && oldestT == pools.used[oldest] && !Busy(pools, out, oldest)
        invariant oldest != "" ==> forall n :: n in pools.used && n !in left && !Busy(pools, out, n) ==>
          oldestT <= pools.used[n]
        decreases |left|
      {
        var name :| name in left;
        left := left - {name};
        if Count(pools.pending, name) > 0 || Count(out, pools.dbs[name]) > 0 {
          continue;
        }
        if oldest == "" || pools.used[name] < oldestT {
          oldest, oldestT := name, pools.used[name];
        }
      }
    }

    /** Evicts the least recently used idle database, if there is one. */
    method EvictOldest(out: Checkouts) returns (oldest: string)
      requires Keyed(pools)
      modifies this
      ensures Keyed(pools)
      ensures oldest == "" ==> pools == old(pools) && forall n :: n in pools.used ==> Busy(pools, out, n)
      ensures oldest != "" ==> oldest in old(pools).used && !Busy(old(pools), out, oldest)
      ensures oldest != "" ==> oldest in old(pools).dbs && pools == EvictOne(old(pools), oldest)
      ensures oldest != "" ==> forall n :: n in old(pools).used && !Busy(old(pools), out, n) ==>
        old(pools).used[oldest] <= old(pools).used[n]
    {
      oldest := Oldest(out);
      if oldest != "" {
        pools := pools.(dbs := pools.dbs - {oldest}, used := pools.used - {oldest},
          closed := pools.closed + {pools.dbs[oldest]});
      }
    }

    /** Makes room for one more database. */
    method MakeRoom(out: Checkouts) returns (ghost evicted: set<string>)
      requires Keyed(pools)
      modifies this
      ensures Keyed(pools) && pools == Evict(old(pools), evicted)
      ensures LegalEviction(old(pools), out, maxDatabases, evicted)
    {
      evicted := {};
      ghost var was := pools;
      EvictNone(was);
      while |pools.dbs| >= maxDatabases
        invariant Keyed(pools) && pools == Evict(was, evicted) && Evictable(was, out, maxDatabases, evicted)
        decreases |pools.dbs|
      {
        ghost var before := pools;
        var oldest := EvictOldest(out);
        if oldest == "" {
          break;
        }
        MadeRoom(was, before, out, maxDatabases, evicted, oldest);
        evicted := evicted + {oldest};
      }
      RoomMade(was, pools, out, maxDatabases, evicted);
    }

    /** Opens the pool of a database that has none. */
    method OpenPool(datname: string, out: Checkouts, canOpen: bool) returns (ghost evicted: set<string>)
      requires Keyed(pools) && datname != "" && datname !in pools.dbs
      modifies this
      ensures LegalEviction(old(pools), out, maxDatabases, evicted)
      ensures pools == if canOpen then Open(Evict(old(pools), evicted), datname) else Evict(old(pools), evicted)
      ensures pools.dbs.Keys == pools.used.Keys + (if canOpen then {datname} else {}) && "" !in pools.dbs
    {
      evicted := MakeRoom(out);
      if canOpen {
        AddPool(datname);
      }
    }

    method AddPool(datname: string)
      requires Keyed(pools) && datname != ""
      modifies this
      ensures pools == Open(old(pools), datname) && pools.dbs.Keys == pools.used.Keys + {datname} && "" !in pools.dbs
    {
      pools := pools.(dbs := pools.dbs[datname := pools.serial], serial := pools.serial + 1);
    }

    /**
      The first part of a request for a connection: finds the pool, or makes room and opens one, and
      counts the caller in. It fails when the pool cannot be opened.
    */
    method Choose(datname: string, now: int, out: Checkouts, canOpen: bool)
      returns (pool: nat, ok: bool, ghost evicted: set<string>)
      requires Keyed(pools) && datname != ""
      modifies this
      ensures Keyed(pools)
      ensures datname in old(pools).dbs || LegalEviction(old(pools), out, maxDatabases, evicted)
      ensures ok == (datname in old(pools).dbs || canOpen)
      ensures ok ==> datname in pools.dbs && pool == pools.dbs[datname]
      ensures pools == Chosen(old(pools), datname, now, evicted, canOpen)
      ensures ClosedOldest(old(pools), out, pools)
      ensures ok && datname !in old(pools).dbs ==> WithinOrBusy(old(pools), out, maxDatabases, pools, datname)
    {
      ghost var was := pools;
      evicted := {};
      if datname !in pools.dbs {
        evicted := OpenPool(datname, out, canOpen);
        if !canOpen {
          ChosenCloses(was, out, maxDatabases, datname, now, evicted, canOpen);
          return 0, false, evicted;
        }
      }
      ok := true;
      pool := pools.dbs[datname];
      CountIn(datname, now);
      ChosenCloses(was, out, maxDatabases, datname, now, evicted, canOpen);
    }

    method CountIn(datname: string, now: int)
      requires datname != "" && pools.dbs.Keys == pools.used.Keys + {datname} && "" !in pools.dbs
      modifies this
      ensures pools == Pick(old(pools), datname, now) && Keyed(pools)
    {
      pools := pools.(used := pools.used[datname := now],
        pending := pools.pending[datname := Count(pools.pending, datname) + 1]);
    }

    /** The last part: the caller has heard from the pool. */
    method Heard(datname: string)
      requires Count(pools.pending, datname) > 0
      modifies this
      ensures pools == Settle(old(pools), datname)
    {
      pools := pools.(pending := pools.pending[datname := pools.pending[datname] - 1]);
      if pools.pending[datname] == 0 {
        pools := pools.(pending := pools.pending - {datname});
      }
      assert pools.pending == Settle(old(pools), datname).pending;
    }
  }

  /** The maps after a caller has asked for a database. */
  function Chosen(p: Pools, name: string, now: int, evicted: set<string>, canOpen: bool): Pools {
    if name in p.dbs then Pick(p, name, now)
    else
      var room := Evict(p, evicted);
      if canOpen then Pick(Open(room, name), name, now) else room
  }

  function EvictOne(p: Pools, name: string): Pools
    requires name in p.dbs
  {
    p.(dbs := p.dbs - {name}, used := p.used - {name}, closed := p.closed + {p.dbs[name]})
  }

  lemma EvictOneSize(p: Pools, name: string)
    requires name in p.dbs
    ensures |EvictOne(p, name).dbs| < |p.dbs|
  {
    assert EvictOne(p, name).dbs.Keys == p.dbs.Keys - {name};
  }

  /** What is least recently used among those that are left is so among those that were there. */
  lemma OldestOfAll(was: Pools, before: Pools, out: Checkouts, names: set<string>, oldest: string)
    requires Keyed(was) && names <= was.used.Keys && before == Evict(was, names) && oldest in before.used
    requires !Busy(before, out, oldest)
    requires forall n :: n in before.used && !Busy(before, out, n) ==> before.used[oldest] <= before.used[n]
    ensures oldest in was.used && oldest !in names && !Busy(was, out, oldest) && |before.dbs| == |was.used.Keys - names|
    ensures forall m :: m in was.used && m !in names && !Busy(was, out, m) ==> was.used[oldest] <= was.used[m]
  {
    EvictKeeps(was, names, out);
  }

  /** One more round of making room. */
  lemma MadeRoom(was: Pools, before: Pools, out: Checkouts, limit: int, names: set<string>, oldest: string)
    requires Keyed(was) && Evictable(was, out, limit, names) && before == Evict(was, names) && |before.dbs| >= limit
    requires oldest in before.used && !Busy(before, out, oldest)
    requires forall n :: n in before.used && !Busy(before, out, n) ==> before.used[oldest] <= before.used[n]
    ensures oldest in before.dbs && EvictOne(before, oldest) == Evict(was, names + {oldest})
    ensures Evictable(was, out, limit, names + {oldest}) && |EvictOne(before, oldest).dbs| < |before.dbs|
  {
    OldestOfAll(was, before, out, names, oldest);
    EvictOneMore(was, names, oldest);
    EvictableOneMore(was, out, limit, names, oldest);
    EvictOneSize(before, oldest);
  }

  lemma RoomMade(was: Pools, after: Pools, out: Checkouts, limit: int, names: set<string>)
    requires Keyed(was) && Evictable(was, out, limit, names) && after == Evict(was, names)
    requires |after.dbs| < limit || forall n :: n in after.used ==> Busy(after, out, n)
    ensures LegalEviction(was, out, limit, names)
  {
    EvictKeeps(was, names, out);
  }

  lemma EvictNone(p: Pools)
    ensures Evict(p, {}) == p
  {
    assert p.dbs - {} == p.dbs && p.used - {} == p.used;
  }

  lemma EvictableOneMore(p: Pools, out: Checkouts, limit: int, names: set<string>, name: string)
    requires Evictable(p, out, limit, names) && name in p.used && name !in names && !Busy(p, out, name)
    requires |p.used.Keys - names| >= limit
    requires forall m :: m in p.used && m !in names && !Busy(p, out, m) ==> p.used[name] <= p.used[m]
    ensures Evictable(p, out, limit, names + {name})
  {
    assert p.used.Keys - (names + {name}) == p.used.Keys - names - {name};
  }

  lemma EvictKeeps(p: Pools, names: set<string>, out: Checkouts)
    requires Keyed(p) && names <= p.used.Keys
    ensures var q := Evict(p, names);
            && q.used.Keys == p.used.Keys - names && |q.dbs| == |p.used.Keys - names|
            && forall n :: n in q.used ==> q.used[n] == p.used[n] && (Busy(q, out, n) <==> Busy(p, out, n))
  {
    assert Evict(p, names).dbs.Keys == p.used.Keys - names;
  }

  lemma EvictOneMore(p: Pools, names: set<string>, name: string)
    requires Keyed(p) && names <= p.used.Keys && name in p.used && name !in names
    ensures name in Evict(p, names).dbs && Evict(p, names + {name}) == EvictOne(Evict(p, names), name)
  {
    var q, r := Evict(p, names), Evict(p, names + {name});
    assert r.dbs == q.dbs - {name};
    assert r.used == q.used - {name};
    assert r.closed == q.closed + {q.dbs[name]};
  }

  lemma RoomKeys(p: Pools, names: set<string>, name: string)
    requires Keyed(p) && name !in p.dbs
    ensures var kept, q := p.used.Keys - names, Open(Evict(p, names), name);
            q.dbs.Keys == kept + {name} && |q.dbs| == |kept| + 1
  {
    var kept, q := p.used.Keys - names, Open(Evict(p, names), name);
    assert q.dbs.Keys == kept + {name};
    assert |q.dbs| == |q.dbs.Keys|;
  }

  /** Once room was made and a pool opened, the map is within its bound or every other pool is busy. */
  lemma RoomBound(p: Pools, out: Checkouts, limit: int, names: set<string>, name: string)
    requires Keyed(p) && LegalEviction(p, out, limit, names) && name !in p.dbs
    ensures WithinOrBusy(p, out, limit, Open(Evict(p, names), name), name)
  {
    RoomKeys(p, names, name);
  }

  ghost predicate WithinOrBusy(p: Pools, out: Checkouts, limit: int, q: Pools, name: string) {
    |q.dbs| <= limit || forall n :: n in q.dbs && n != name ==> Busy(p, out, n)
  }

  /** What was closed was idle, and no idle database that stays was used before it. */
  ghost predicate ClosedOldest(p: Pools, out: Checkouts, q: Pools) {
    forall gone, kept :: gone in p.dbs && gone !in q.dbs && kept in p.dbs && kept in q.dbs ==>
      && !Busy(p, out, gone)
      && (!Busy(p, out, kept) && gone in p.used && kept in p.used ==> p.used[gone] <= p.used[kept])
  }

  lemma ChosenKeys(p: Pools, name: string, now: int, names: set<string>, canOpen: bool)
    requires name !in p.dbs
    ensures Chosen(p, name, now, names, canOpen).dbs.Keys == p.dbs.Keys - names + if canOpen then {name} else {}
  {}

  lemma ChosenCloses(p: Pools, out: Checkouts, limit: int, name: string, now: int, names: set<string>, canOpen: bool)
    requires Keyed(p) && (name in p.dbs || LegalEviction(p, out, limit, names))
    ensures ClosedOldest(p, out, Chosen(p, name, now, names, canOpen))
    ensures name !in p.dbs && canOpen ==> WithinOrBusy(p, out, limit, Chosen(p, name, now, names, canOpen), name)
  {
    hide Busy, WithinOrBusy, Evictable, Evict;
    if name !in p.dbs {
      ChosenKeys(p, name, now, names, canOpen);
      ChosenBound(p, out, limit, name, now, names, canOpen);
      EvictedOldest(p, out, limit, names, Chosen(p, name, now, names, canOpen));
    }
  }

  lemma EvictedOldest(p: Pools, out: Checkouts, limit: int, names: set<string>, q: Pools)
    requires Keyed(p) && Evictable(p, out, limit, names) && forall n :: n in p.dbs ==> (n in q.dbs <==> n !in names)
    ensures ClosedOldest(p, out, q)
  {
    hide Busy;
  }

  lemma ChosenBound(p: Pools, out: Checkouts, limit: int, name: string, now: int, names: set<string>, canOpen: bool)
    requires Keyed(p) && name !in p.dbs && LegalEviction(p, out, limit, names)
    ensures canOpen ==> WithinOrBusy(p, out, limit, Chosen(p, name, now, names, canOpen), name)
  {
    RoomBound(p, out, limit, names, name);
  }
}
