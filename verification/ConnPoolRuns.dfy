/** Every interleaving of callers that ask for, acquire and release connections. */
module ConnPoolRuns {
  import opened Basics
  import opened ConnPools

  /**
    A caller has picked a pool and waits for it, has been served or refused by it but not yet
    counted out, or holds its connection.
  */
  datatype Phase = Waiting | Served | Refused | Holding

  datatype Caller = Caller(name: string, pool: nat, phase: Phase)

  datatype State = State(pools: Pools, callers: map<nat, Caller>)

  /** The callers of a database that are counted as pending. */
  function Inside(callers: map<nat, Caller>, name: string): set<nat> {
    set c | c in callers && callers[c].name == name && callers[c].phase != Holding
  }

  /** The callers that have a connection of a pool checked out. */
  function Owners(callers: map<nat, Caller>, pool: nat): set<nat> {
    set c | c in callers && callers[c].pool == pool && (callers[c].phase == Served || callers[c].phase == Holding)
  }

  function Out(s: State): Checkouts {
    map p: nat | p < s.pools.serial :: |Owners(s.callers, p)|
  }

  datatype Action =
    | Ask(caller: nat, name: string, now: int, evicted: set<string>, canOpen: bool)
    | Acquire(caller: nat, ok: bool)
    | Hear(caller: nat)
    | Release(caller: nat)

  ghost predicate Enabled(limit: int, s: State, a: Action) {
    match a
    case Ask(c, name, _, evicted, _) =>
      c !in s.callers && name != "" && (name in s.pools.dbs || LegalEviction(s.pools, Out(s), limit, evicted))
    case Acquire(c, _) => c in s.callers && s.callers[c].phase == Waiting
    case Hear(c) => c in s.callers && (s.callers[c].phase == Served || s.callers[c].phase == Refused)
    case Release(c) => c in s.callers && s.callers[c].phase == Holding
  }

  ghost function Next(limit: int, s: State, a: Action): State
    requires Enabled(limit, s, a)
  {
    match a
    case Ask(c, name, now, evicted, canOpen) =>
      var pools := Chosen(s.pools, name, now, evicted, canOpen);
      State(pools, if name in s.pools.dbs || canOpen then s.callers[c := Caller(name, pools.dbs[name], Waiting)]
        else s.callers)
    case Acquire(c, ok) => s.(callers := s.callers[c := s.callers[c].(phase := if ok then Served else Refused)])
    case Hear(c) =>
      State(Settle(s.pools, s.callers[c].name),
            if s.callers[c].phase == Served then s.callers[c := s.callers[c].(phase := Holding)] else s.callers - {c})
    case Release(c) => s.(callers := s.callers - {c})
  }

  datatype Run = Start | Then(prev: Run, action: Action)

  ghost function After(limit: int, run: Run): State {
    match run
    case Start => State(Pools(map[], map[], map[], 0, {}), map[])
    case Then(prev, a) => var s := After(limit, prev); if Enabled(limit, s, a) then Next(limit, s, a) else s
  }

  // ---- what every step keeps ----

  predicate AllOpen(p: Pools) {
    && Keyed(p)
    && (forall n :: n in p.dbs ==> p.dbs[n] < p.serial && p.dbs[n] !in p.closed)
    && (forall n, m :: n in p.dbs && m in p.dbs && p.dbs[n] == p.dbs[m] ==> n == m)
    && (forall pool :: pool in p.closed ==> pool < p.serial)
  }

  predicate Placed(p: Pools, callers: map<nat, Caller>) {
    forall c :: c in callers ==> callers[c].name in p.dbs && p.dbs[callers[c].name] == callers[c].pool
  }

  ghost predicate Counted(p: Pools, callers: map<nat, Caller>) {
    forall name :: Count(p.pending, name) == |Inside(callers, name)|
  }

  ghost predicate Inv(s: State) {
    AllOpen(s.pools) && Placed(s.pools, s.callers) && Counted(s.pools, s.callers)
  }

  /** No caller is using a database that may be evicted. */
  lemma IdleHasNoCaller(s: State, name: string, c: nat)
    requires Inv(s) && name in s.pools.dbs && !Busy(s.pools, Out(s), name) && c in s.callers
    ensures s.callers[c].name != name
  {
    var pool := s.pools.dbs[name];
    assert Count(s.pools.pending, name) == |Inside(s.callers, name)|;
    assert Count(Out(s), pool) == |Owners(s.callers, pool)|;
    assert c !in Inside(s.callers, name) && c !in Owners(s.callers, pool);
  }

  lemma EvictInv(limit: int, s: State, names: set<string>)
    requires Inv(s) && LegalEviction(s.pools, Out(s), limit, names)
    ensures Inv(s.(pools := Evict(s.pools, names)))
  {
    var p := Evict(s.pools, names);
    assert p.dbs.Keys == s.pools.dbs.Keys - names;
    forall c | c in s.callers ensures s.callers[c].name in p.dbs && p.dbs[s.callers[c].name] == s.callers[c].pool {
      if s.callers[c].name in names { IdleHasNoCaller(s, s.callers[c].name, c); }
    }
    forall n | n in p.dbs ensures p.dbs[n] < p.serial && p.dbs[n] !in p.closed {
      assert n in s.pools.dbs && n !in names;
    }
    assert Counted(p, s.callers) by {
      forall name ensures Count(p.pending, name) == |Inside(s.callers, name)| {
        assert Count(s.pools.pending, name) == |Inside(s.callers, name)|;
      }
    }
  }

  lemma OpenInv(s: State, name: string)
    requires Inv(s) && name != "" && name !in s.pools.dbs
    ensures var p := Open(s.pools, name);
            && Placed(p, s.callers) && Counted(p, s.callers) && p.dbs.Keys == s.pools.used.Keys + {name}
            && AllOpen(p.(used := p.used[name := 0]))
  {
    var p := Open(s.pools, name);
    forall n ensures Count(p.pending, n) == |Inside(s.callers, n)| {
      assert Count(s.pools.pending, n) == |Inside(s.callers, n)|;
    }
  }

  lemma InsideGrows(callers: map<nat, Caller>, c: nat, caller: Caller, name: string)
    requires c !in callers && caller.phase == Waiting
    ensures |Inside(callers[c := caller], name)| == |Inside(callers, name)| + if caller.name == name then 1 else 0
  {
    assert Inside(callers[c := caller], name) == Inside(callers, name) + (if caller.name == name then {c} else {});
  }

  /** A caller is counted in for a database that has its pool. */
  lemma PickInv(p: Pools, callers: map<nat, Caller>, c: nat, name: string, now: int)
    requires Placed(p, callers) && Counted(p, callers) && AllOpen(p.(used := p.used[name := 0])) && name in p.dbs
    requires c !in callers
    ensures Inv(State(Pick(p, name, now), callers[c := Caller(name, p.dbs[name], Waiting)]))
  {
    var q, caller := Pick(p, name, now), Caller(name, p.dbs[name], Waiting);
    forall n ensures Count(q.pending, n) == |Inside(callers[c := caller], n)| {
      assert Count(p.pending, n) == |Inside(callers, n)|;
      InsideGrows(callers, c, caller, n);
    }
    assert q.used.Keys == p.used[name := 0].Keys;
  }

  lemma AskInv(limit: int, s: State, a: Action)
    requires Inv(s) && a.Ask? && Enabled(limit, s, a)
    ensures Inv(Next(limit, s, a))
  {
    if a.name in s.pools.dbs {
      assert s.pools.used[a.name := 0].Keys == s.pools.used.Keys;
      PickInv(s.pools, s.callers, a.caller, a.name, a.now);
    } else {
      EvictInv(limit, s, a.evicted);
      if a.canOpen {
        var room := s.(pools := Evict(s.pools, a.evicted));
        OpenInv(room, a.name);
        PickInv(Open(room.pools, a.name), s.callers, a.caller, a.name, a.now);
      }
    }
  }

  lemma SameInside(before: map<nat, Caller>, after: map<nat, Caller>)
    requires forall name :: Inside(before, name) == Inside(after, name)
    ensures forall p :: Counted(p, before) ==> Counted(p, after)
  {
    forall p | Counted(p, before) ensures Counted(p, after) {
      forall name ensures Count(p.pending, name) == |Inside(after, name)| {
        assert Count(p.pending, name) == |Inside(before, name)|;
      }
    }
  }

  lemma AcquireInv(limit: int, s: State, a: Action)
    requires Inv(s) && a.Acquire? && Enabled(limit, s, a)
    ensures Inv(Next(limit, s, a))
  {
    var after := Next(limit, s, a).callers;
    forall name ensures Inside(s.callers, name) == Inside(after, name) {}
    SameInside(s.callers, after);
  }

  lemma ReleaseInv(limit: int, s: State, a: Action)
    requires Inv(s) && a.Release? && Enabled(limit, s, a)
    ensures Inv(Next(limit, s, a))
  {
    var after := Next(limit, s, a).callers;
    forall name ensures Inside(s.callers, name) == Inside(after, name) {}
    SameInside(s.callers, after);
  }

  lemma SettleCounts(p: Pools, asked: string, name: string)
    requires Count(p.pending, asked) > 0
    ensures Count(Settle(p, asked).pending, name) == Count(p.pending, name) - if name == asked then 1 else 0
  {}

  /** One caller less of a database, and one less on its count. */
  lemma OneLess(p: Pools, callers: map<nat, Caller>, c: nat, after: map<nat, Caller>)
    requires Counted(p, callers) && c in callers && callers[c].phase != Holding
    requires forall name :: Inside(after, name) == Inside(callers, name) - {c}
    ensures Counted(Settle(p, callers[c].name), after)
  {
    hide Settle, Count;
    var asked := callers[c].name;
    assert c in Inside(callers, asked) && Count(p.pending, asked) == |Inside(callers, asked)|;
    forall name ensures Count(Settle(p, asked).pending, name) == |Inside(after, name)| {
      SettleCounts(p, asked, name);
      assert Inside(after, name) == Inside(callers, name) - {c};
      assert Count(p.pending, name) == |Inside(callers, name)|;
    }
  }

  lemma HearInv(limit: int, s: State, a: Action)
    requires Inv(s) && a.Hear? && Enabled(limit, s, a)
    ensures Inv(Next(limit, s, a))
  {
    var after := Next(limit, s, a).callers;
    forall name ensures Inside(after, name) == Inside(s.callers, name) - {a.caller} {}
    OneLess(s.pools, s.callers, a.caller, after);
  }

  lemma {:induction false} RunInv(limit: int, run: Run)
    ensures Inv(After(limit, run))
  {
    match run
    case Start =>
      forall name ensures |Inside(map[], name)| == 0 { assert Inside(map[], name) == {}; }
    case Then(prev, a) =>
      RunInv(limit, prev);
      var s := After(limit, prev);
      if Enabled(limit, s, a) {
        match a
        case Ask(_, _, _, _, _) => AskInv(limit, s, a);
        case Acquire(_, _) => AcquireInv(limit, s, a);
        case Hear(_) => HearInv(limit, s, a);
        case Release(_) => ReleaseInv(limit, s, a);
      }
  }

  // ---- what is promised ----

  /**
    In every run, the pool that a caller has picked is open until the caller has released it, and is
    still the pool of its database.
  */
  lemma PickedPoolsStayOpen(limit: int, run: Run, c: nat)
    requires c in After(limit, run).callers
    ensures var s := After(limit, run);
            s.callers[c].pool !in s.pools.closed && s.callers[c].name in s.pools.dbs
              && s.pools.dbs[s.callers[c].name] == s.callers[c].pool
  {
    RunInv(limit, run);
  }

  // ---- how many pools there can be ----

  ghost function Peak(limit: int, run: Run): nat {
    var now := |After(limit, run).callers|;
    if run.Start? then now else var before := Peak(limit, run.prev); if before < now then now else before
  }

  function NamesOf(callers: map<nat, Caller>): set<string> {
    set c | c in callers :: callers[c].name
  }

  lemma {:induction false} NamesSize(callers: map<nat, Caller>)
    ensures |NamesOf(callers)| <= |callers|
    decreases |callers|
  {
    if callers != map[] {
      var c :| c in callers;
      var rest := callers - {c};
      assert callers.Keys == rest.Keys + {c};
      NamesSize(rest);
      SubsetSize(NamesOf(callers), NamesOf(rest) + {callers[c].name});
    } else {
      assert NamesOf(callers) == {};
    }
  }

  /** A database that is busy has a caller. */
  lemma BusyHasCaller(s: State, name: string)
    requires Inv(s) && name in s.pools.dbs && Busy(s.pools, Out(s), name)
    ensures name in NamesOf(s.callers)
  {
    var pool := s.pools.dbs[name];
    assert Count(s.pools.pending, name) == |Inside(s.callers, name)|;
    if Inside(s.callers, name) != {} {
      var c :| c in Inside(s.callers, name);
    } else {
      assert Owners(s.callers, pool) != {};
      var c :| c in Owners(s.callers, pool);
      assert s.pools.dbs[s.callers[c].name] == pool;
    }
  }

  lemma UsedByCallers(s: State, callers: map<nat, Caller>, dbs: set<string>, c: nat)
    requires Inv(s) && c in callers && forall o :: o in s.callers ==>
      o in callers && callers[o].name == s.callers[o].name
    requires forall n :: n in dbs && n != callers[c].name ==> n in s.pools.dbs && Busy(s.pools, Out(s), n)
    ensures |dbs| <= |callers|
  {
    forall n | n in dbs ensures n in NamesOf(callers) {
      if n != callers[c].name {
        BusyHasCaller(s, n);
        var o :| o in s.callers && s.callers[o].name == n;
        assert callers[o].name == n;
      }
    }
    SubsetSize(dbs, NamesOf(callers));
    NamesSize(callers);
  }

  /** After one more pool is opened, there are no more pools than the limit or than callers. */
  lemma OpenBound(limit: int, s: State, a: Action)
    requires Inv(s) && a.Ask? && a.canOpen && Enabled(limit, s, a) && a.name !in s.pools.dbs
    ensures var t := Next(limit, s, a); |t.pools.dbs| <= limit || |t.pools.dbs| <= |t.callers|
  {
    hide Busy, Out, Evict;
    var t := Next(limit, s, a);
    ChosenKeys(s.pools, a.name, a.now, a.evicted, true);
    ChosenBound(s.pools, Out(s), limit, a.name, a.now, a.evicted, true);
    if |t.pools.dbs| > limit {
      UsedByCallers(s, t.callers, t.pools.dbs.Keys, a.caller);
    }
  }

  /** Any other step opens no pool. */
  lemma NoOpen(limit: int, s: State, a: Action)
    requires Enabled(limit, s, a) && !(a.Ask? && a.canOpen && a.name !in s.pools.dbs)
    ensures Next(limit, s, a).pools.dbs.Keys <= s.pools.dbs.Keys
  {}

  /**
    In every run, the pools are within the bound, or there have been as many callers at a time as there
    are pools: the bound is exceeded only by databases that are all in use.
  */
  lemma {:induction false} BoundedByCallers(limit: int, run: Run)
    ensures var n := |After(limit, run).pools.dbs|; n <= limit || n <= Peak(limit, run)
  {
    if run.Then? {
      var s, a := After(limit, run.prev), run.action;
      BoundedByCallers(limit, run.prev);
      RunInv(limit, run.prev);
      if Enabled(limit, s, a) {
        if a.Ask? && a.canOpen && a.name !in s.pools.dbs {
          OpenBound(limit, s, a);
        } else {
          NoOpen(limit, s, a);
          SubsetSize(Next(limit, s, a).pools.dbs.Keys, s.pools.dbs.Keys);
        }
      }
    }
  }
}
