/**
  The check scheduler: one ticker loop per entry, a bounded set of workers, and a results channel
  that is closed at the end. Every statement that another goroutine can observe is a step, and the
  steps interleave in any order.
*/
module Scheduler {

  /**
    Where a ticker loop stands: waiting for a tick, past the busy check, allowed by the breaker,
    holding a worker slot, past setting the busy flag, past the wait group, or gone.
  */
  datatype LoopStep = Unstarted | Selecting | Ticked | Granted | Holding | Flagged | Added | Exited

  /**
    Where a scrape goroutine stands: scraping, at the send of its result, past it, and past each of
    its deferred calls.
  */
  datatype ScrapeStep = Scraping | Sending | Returned | Unflagged | Released | Finished

  datatype Scrape = Scrape(entry: nat, step: ScrapeStep)

  datatype RunStep = Launching | WaitingLoops | WaitingScrapes | Closed

  /** Who took a worker slot, or was added to the wait group of the scrapes. */
  datatype Owner = ByLoop(entry: nat) | ByScrape(id: nat)

  /** The granted `Allow` calls and the recorded outcomes, last one outermost. */
  datatype Log = Empty | Then(prev: Log, entry: nat, grant: bool)

  datatype Sched = Sched(loops: seq<LoopStep>, busy: seq<bool>, scrapes: map<nat, Scrape>, next: nat,
                         slots: set<Owner>, added: set<Owner>, cancelled: bool, run: RunStep, log: Log)

  datatype Action =
    | Cancel
    | Launch(entry: nat)
    | AllLaunched
    | Tick(entry: nat)
    | Allow(entry: nat, allowed: bool)
    | TakeSlot(entry: nat)
    | LeaveSlot(entry: nat)
    | SetBusy(entry: nat)
    | AddScrape(entry: nat)
    | Spawn(entry: nat)
    | Exit(entry: nat)
    | Record(id: nat)
    | Send(id: nat)
    | ClearBusy(id: nat)
    | FreeSlot(id: nat)
    | DoneScrape(id: nat)
    | LoopsDone
    | CloseResults

  predicate LoopAt(s: Sched, i: nat, step: LoopStep) {
    i < |s.loops| && s.loops[i] == step
  }

  predicate ScrapeAt(s: Sched, id: nat, step: ScrapeStep) {
    id in s.scrapes && s.scrapes[id].step == step && s.scrapes[id].entry < |s.busy|
  }

  function MoveLoop(s: Sched, i: nat, step: LoopStep): Sched
    requires i < |s.loops|
  {
    s.(loops := s.loops[i := step])
  }

  function MoveScrape(s: Sched, id: nat, step: ScrapeStep): Sched
    requires id in s.scrapes
  {
    s.(scrapes := s.scrapes[id := s.scrapes[id].(step := step)])
  }

  predicate AllLoops(s: Sched, ok: LoopStep -> bool) {
    forall i :: 0 <= i < |s.loops| ==> ok(s.loops[i])
  }

  /** One step. An action that is not possible changes nothing. */
  function Next(s: Sched, maxWorkers: nat, a: Action): Sched {
    match a
    case Cancel => s.(cancelled := true)
    case Launch(i) => if s.run == Launching && LoopAt(s, i, Unstarted) then MoveLoop(s, i, Selecting) else s
    case AllLaunched =>
      if s.run == Launching && AllLoops(s, p => p != Unstarted) then s.(run := WaitingLoops) else s
    case Tick(i) =>
      if LoopAt(s, i, Selecting) && i < |s.busy| && !s.busy[i] then MoveLoop(s, i, Ticked) else s
    case Allow(i, allowed) =>
      if !LoopAt(s, i, Ticked) then s
      else if allowed then MoveLoop(s, i, Granted).(log := Then(s.log, i, true))
      else MoveLoop(s, i, Selecting)
    case TakeSlot(i) =>
      if LoopAt(s, i, Granted) && |s.slots| < maxWorkers then MoveLoop(s, i, Holding).(slots := s.slots + {ByLoop(i)})
        else s
    case LeaveSlot(i) => if LoopAt(s, i, Granted) && s.cancelled then MoveLoop(s, i, Exited) else s
    case SetBusy(i) =>
      if LoopAt(s, i, Holding) && i < |s.busy| then MoveLoop(s, i, Flagged).(busy := s.busy[i := true]) else s
    case AddScrape(i) => if LoopAt(s, i, Flagged) then MoveLoop(s, i, Added).(added := s.added + {ByLoop(i)}) else s
    case Spawn(i) =>
      if !LoopAt(s, i, Added) then s
      else
        MoveLoop(s, i, Selecting).(
          scrapes := s.scrapes[s.next := Scrape(i, Scraping)], next := s.next + 1,
          slots := s.slots - {ByLoop(i)} + {ByScrape(s.next)}, added := s.added - {ByLoop(i)} + {ByScrape(s.next)})
    case Exit(i) => if LoopAt(s, i, Selecting) && s.cancelled then MoveLoop(s, i, Exited) else s
    case Record(id) =>
      if ScrapeAt(s, id, Scraping) then MoveScrape(s, id, Sending).(log := Then(s.log, s.scrapes[id].entry, false))
        else s
    case Send(id) => if ScrapeAt(s, id, Sending) then MoveScrape(s, id, Returned) else s
    case ClearBusy(id) =>
      if ScrapeAt(s, id, Returned) then MoveScrape(s, id, Unflagged).(busy := s.busy[s.scrapes[id].entry := false])
        else s
    case FreeSlot(id) =>
      if ScrapeAt(s, id, Unflagged) then MoveScrape(s, id, Released).(slots := s.slots - {ByScrape(id)}) else s
    case DoneScrape(id) =>
      if ScrapeAt(s, id, Released) then MoveScrape(s, id, Finished).(added := s.added - {ByScrape(id)}) else s
    case LoopsDone =>
      if s.run == WaitingLoops && AllLoops(s, p => p == Exited) then s.(run := WaitingScrapes) else s
    case CloseResults => if s.run == WaitingScrapes && s.added == {} then s.(run := Closed) else s
  }

  datatype Run = Start(entries: nat) | Step(prev: Run, action: Action)

  function After(run: Run, maxWorkers: nat): Sched {
    match run
    case Start(n) =>
      Sched(seq(n, _ => Unstarted), seq(n, _ => false), map[], 0, {}, {}, false, Launching, Empty)
    case Step(prev, a) => Next(After(prev, maxWorkers), maxWorkers, a)
  }

  // ---- granted and recorded ----

  function Outstanding(log: Log, e: nat): int {
    if log.Empty? then 0 else Outstanding(log.prev, e) + if log.entry != e then 0 else if log.grant then 1 else -1
  }

  /** Per entry, grants and outcomes alternate, a grant first. */
  predicate Alternates(log: Log) {
    log.Then? ==> Alternates(log.prev) && Outstanding(log.prev, log.entry) == if log.grant then 0 else 1
  }

  // ---- what every step keeps ----

  predicate Active(p: ScrapeStep) {
    p == Scraping || p == Sending || p == Returned
  }

  predicate ActiveOn(s: Sched, id: nat, i: nat) {
    id in s.scrapes && s.scrapes[id].entry == i && Active(s.scrapes[id].step)
  }

  predicate Starting(p: LoopStep) {
    p == Ticked || p == Granted || p == Holding || p == Flagged || p == Added
  }

  predicate LoopHolds(p: LoopStep) {
    p == Holding || p == Flagged || p == Added
  }

  predicate ScrapeHolds(p: ScrapeStep) {
    Active(p) || p == Unflagged
  }

  /**
    An entry has one active scrape at most and none while its loop starts one, and its busy flag is up
    exactly while it has one or is about to.
  */
  ghost predicate EntriesOk(s: Sched) {
    && |s.busy| == |s.loops|
    && (forall id :: id in s.scrapes ==> id < s.next && s.scrapes[id].entry < |s.loops|)
    && (forall id: nat, i: nat :: ActiveOn(s, id, i) ==> s.busy[i] && !Starting(s.loops[i]))
    && (forall id: nat, id': nat, i: nat :: ActiveOn(s, id, i) && ActiveOn(s, id', i) ==> id == id')
    && (forall i :: 0 <= i < |s.loops| && (s.loops[i] == Flagged || s.loops[i] == Added) ==> s.busy[i])
    && (forall i: nat :: i < |s.loops| && s.busy[i] ==> s.loops[i] == Flagged || s.loops[i] == Added || HasActive(s, i))
  }

  ghost predicate HasActive(s: Sched, i: nat) {
    exists id: nat :: ActiveOn(s, id, i)
  }

  ghost predicate SlotsOk(s: Sched, maxWorkers: nat) {
    && |s.slots| <= maxWorkers
    && (forall i: nat :: ByLoop(i) in s.slots <==> i < |s.loops| && LoopHolds(s.loops[i]))
    && (forall id: nat :: ByScrape(id) in s.slots <==> id in s.scrapes && ScrapeHolds(s.scrapes[id].step))
    && (forall i: nat :: ByLoop(i) in s.added <==> i < |s.loops| && s.loops[i] == Added)
    && (forall id: nat :: ByScrape(id) in s.added <==> id in s.scrapes && s.scrapes[id].step != Finished)
  }

  /** An entry is owed an outcome exactly while it is between a grant and its record. */
  ghost predicate LogOk(s: Sched) {
    && Alternates(s.log)
    && (forall i: nat :: i < |s.loops| && Starting(s.loops[i]) && s.loops[i] != Ticked ==> Outstanding(s.log, i) == 1)
    && (forall id: nat, i: nat :: ScrapingOn(s, id, i) ==> Outstanding(s.log, i) == 1)
    && (forall i: nat :: i < |s.loops| && s.loops[i] in {Unstarted, Selecting, Ticked} ==>
          Outstanding(s.log, i) == 0 || HasScraping(s, i))
  }

  ghost predicate HasScraping(s: Sched, i: nat) {
    exists id: nat :: ScrapingOn(s, id, i)
  }

  predicate ScrapingOn(s: Sched, id: nat, i: nat) {
    ScrapeAt(s, id, Scraping) && s.scrapes[id].entry == i
  }

  ghost predicate RunOk(s: Sched) {
    && (s.run != Launching ==> forall i :: 0 <= i < |s.loops| ==> s.loops[i] != Unstarted)
    && (s.run in {WaitingScrapes, Closed} ==> forall i :: 0 <= i < |s.loops| ==> s.loops[i] == Exited)
    && (s.run == Closed ==> s.added == {})
  }

  ghost predicate Inv(s: Sched, maxWorkers: nat) {
    EntriesOk(s) && SlotsOk(s, maxWorkers) && LogOk(s) && RunOk(s)
  }

  predicate OnLoop(a: Action) {
    a.Launch? || a.Tick? || a.Allow? || a.TakeSlot? || a.LeaveSlot? || a.SetBusy? || a.AddScrape? || a.Exit?
  }

  predicate OnScrape(a: Action) {
    a.Record? || a.Send? || a.ClearBusy? || a.FreeSlot? || a.DoneScrape?
  }

  /** A loop moves on: it starts a scrape only when its busy flag is down, and holds the flag when it says so. */
  lemma LoopMoves(s: Sched, s': Sched, i: nat)
    requires EntriesOk(s) && i < |s.loops| && s'.scrapes == s.scrapes && s'.next == s.next
    requires |s'.loops| == |s.loops| && s'.loops == s.loops[i := s'.loops[i]]
    requires |s'.busy| == |s.busy| && s'.busy == s.busy[i := s'.busy[i]] && (s.busy[i] ==> s'.busy[i])
    requires Starting(s'.loops[i]) ==> Starting(s.loops[i]) || !s.busy[i]
    requires s'.loops[i] == Flagged || s'.loops[i] == Added ==> s'.busy[i]
    requires s'.busy[i] ==> s'.loops[i] in {Flagged, Added} || (s.busy[i] && s.loops[i] !in {Flagged, Added})
    ensures EntriesOk(s')
  {
    assert forall id: nat, e: nat :: ActiveOn(s', id, e) <==> ActiveOn(s, id, e);
    assert forall e: nat :: HasActive(s', e) <==> HasActive(s, e);
  }

  lemma LoopEntries(s: Sched, maxWorkers: nat, a: Action)
    requires EntriesOk(s) && OnLoop(a)
    ensures EntriesOk(Next(s, maxWorkers, a))
  {
    var s' := Next(s, maxWorkers, a);
    if s' != s {
      LoopMoves(s, s', a.entry);
    }
  }

  /** A scrape moves on: it does not become active again, and its busy flag goes down only as it stops. */
  lemma ScrapeMoves(s: Sched, s': Sched, id: nat)
    requires EntriesOk(s) && id in s.scrapes && id in s'.scrapes && s'.loops == s.loops && s'.next == s.next
    requires s'.scrapes == s.scrapes[id := s'.scrapes[id]] && s'.scrapes[id].entry == s.scrapes[id].entry
    requires Active(s'.scrapes[id].step) ==> Active(s.scrapes[id].step)
    requires if Active(s.scrapes[id].step) && !Active(s'.scrapes[id].step)
             then s'.busy == s.busy[s.scrapes[id].entry := false] else s'.busy == s.busy
    ensures EntriesOk(s')
  {
    assert ActiveOn(s, id, s.scrapes[id].entry) <==> Active(s.scrapes[id].step);
    assert forall x: nat, i: nat :: ActiveOn(s', x, i) ==>
      ActiveOn(s, x, i) && (x == id ==> Active(s'.scrapes[id].step));
    forall i: nat | HasActive(s, i) && i < |s.busy| && s'.busy[i] ensures HasActive(s', i) {
      var x: nat :| ActiveOn(s, x, i);
      assert ActiveOn(s', x, i);
    }
  }

  lemma ScrapeEntries(s: Sched, maxWorkers: nat, a: Action)
    requires EntriesOk(s) && OnScrape(a)
    ensures EntriesOk(Next(s, maxWorkers, a))
  {
    var s' := Next(s, maxWorkers, a);
    if s' != s {
      ScrapeMoves(s, s', a.id);
    }
  }

  lemma SpawnEntries(s: Sched, maxWorkers: nat, e: nat)
    requires EntriesOk(s) && LoopAt(s, e, Added)
    ensures EntriesOk(Next(s, maxWorkers, Spawn(e)))
  {
    var s' := Next(s, maxWorkers, Spawn(e));
    assert forall id: nat, i: nat :: ActiveOn(s', id, i) <==> ActiveOn(s, id, i) || (id == s.next && i == e);
    assert ActiveOn(s', s.next, e);
    assert forall i: nat :: HasActive(s, i) || i == e ==> HasActive(s', i);
  }

  lemma EntriesStep(s: Sched, maxWorkers: nat, a: Action)
    requires EntriesOk(s)
    ensures EntriesOk(Next(s, maxWorkers, a))
  {
    var s' := Next(s, maxWorkers, a);
    if OnLoop(a) {
      LoopEntries(s, maxWorkers, a);
    } else if OnScrape(a) {
      ScrapeEntries(s, maxWorkers, a);
    } else if a.Spawn? && s' != s {
      SpawnEntries(s, maxWorkers, a.entry);
    } else {
      assert forall id: nat, i: nat :: ActiveOn(s', id, i) <==> ActiveOn(s, id, i);
      assert forall i: nat :: HasActive(s', i) <==> HasActive(s, i);
    }
  }

  /** A move of a loop that neither takes a slot nor adds a scrape. */
  lemma QuietLoop(s: Sched, s': Sched, maxWorkers: nat, i: nat)
    requires SlotsOk(s, maxWorkers) && i < |s.loops| == |s'.loops| && s'.loops == s.loops[i := s'.loops[i]]
    requires s'.scrapes == s.scrapes
    requires s'.slots == s.slots && s'.added == s.added
    requires LoopHolds(s.loops[i]) == LoopHolds(s'.loops[i]) && s.loops[i] != Added && s'.loops[i] != Added
    ensures SlotsOk(s', maxWorkers)
  {
  }

  lemma TakesSlot(s: Sched, maxWorkers: nat, i: nat)
    requires SlotsOk(s, maxWorkers) && LoopAt(s, i, Granted) && |s.slots| < maxWorkers
    ensures SlotsOk(MoveLoop(s, i, Holding).(slots := s.slots + {ByLoop(i)}), maxWorkers)
  {
  }

  lemma AddsScrape(s: Sched, maxWorkers: nat, i: nat)
    requires SlotsOk(s, maxWorkers) && LoopAt(s, i, Flagged)
    ensures SlotsOk(MoveLoop(s, i, Added).(added := s.added + {ByLoop(i)}), maxWorkers)
  {
  }

  lemma LoopSlots(s: Sched, maxWorkers: nat, a: Action)
    requires SlotsOk(s, maxWorkers) && OnLoop(a)
    ensures SlotsOk(Next(s, maxWorkers, a), maxWorkers)
  {
    var s' := Next(s, maxWorkers, a);
    if s' != s {
      if a.TakeSlot? {
        TakesSlot(s, maxWorkers, a.entry);
      } else if a.AddScrape? {
        AddsScrape(s, maxWorkers, a.entry);
      } else {
        QuietLoop(s, s', maxWorkers, a.entry);
      }
    }
  }

  /** A move of a scrape that keeps its slot and stays counted. */
  lemma QuietScrape(s: Sched, s': Sched, maxWorkers: nat, id: nat)
    requires SlotsOk(s, maxWorkers) && id in s.scrapes && id in s'.scrapes && s'.loops == s.loops
    requires s'.scrapes == s.scrapes[id := s'.scrapes[id]] && s'.slots == s.slots && s'.added == s.added
    requires ScrapeHolds(s'.scrapes[id].step) && ScrapeHolds(s.scrapes[id].step)
    ensures SlotsOk(s', maxWorkers)
  {
  }

  lemma FreesSlot(s: Sched, maxWorkers: nat, id: nat)
    requires SlotsOk(s, maxWorkers) && ScrapeAt(s, id, Unflagged)
    ensures SlotsOk(MoveScrape(s, id, Released).(slots := s.slots - {ByScrape(id)}), maxWorkers)
  {
    assert |s.slots - {ByScrape(id)}| <= |s.slots|;
  }

  lemma FinishesScrape(s: Sched, maxWorkers: nat, id: nat)
    requires SlotsOk(s, maxWorkers) && ScrapeAt(s, id, Released)
    ensures SlotsOk(MoveScrape(s, id, Finished).(added := s.added - {ByScrape(id)}), maxWorkers)
  {
  }

  lemma ScrapeSlots(s: Sched, maxWorkers: nat, a: Action)
    requires SlotsOk(s, maxWorkers) && OnScrape(a)
    ensures SlotsOk(Next(s, maxWorkers, a), maxWorkers)
  {
    var s' := Next(s, maxWorkers, a);
    if s' != s {
      if a.FreeSlot? {
        FreesSlot(s, maxWorkers, a.id);
      } else if a.DoneScrape? {
        FinishesScrape(s, maxWorkers, a.id);
      } else {
        QuietScrape(s, s', maxWorkers, a.id);
      }
    }
  }

  lemma SpawnSlots(s: Sched, maxWorkers: nat, i: nat)
    requires EntriesOk(s) && SlotsOk(s, maxWorkers) && LoopAt(s, i, Added)
    ensures SlotsOk(Next(s, maxWorkers, Spawn(i)), maxWorkers)
  {
    var s' := Next(s, maxWorkers, Spawn(i));
    assert ByLoop(i) in s.slots && ByScrape(s.next) !in s.slots;
    assert |s.slots - {ByLoop(i)}| == |s.slots| - 1;
    assert |s'.slots| == |s.slots|;
  }

  lemma SlotsStep(s: Sched, maxWorkers: nat, a: Action)
    requires EntriesOk(s) && SlotsOk(s, maxWorkers)
    ensures SlotsOk(Next(s, maxWorkers, a), maxWorkers)
  {
    if OnLoop(a) {
      LoopSlots(s, maxWorkers, a);
    } else if OnScrape(a) {
      ScrapeSlots(s, maxWorkers, a);
    } else if a.Spawn? && LoopAt(s, a.entry, Added) {
      SpawnSlots(s, maxWorkers, a.entry);
    }
  }

  /** A scraping entry is not starting a scrape, so it is owed nothing when its loop is allowed on. */
  lemma GrantLog(s: Sched, i: nat)
    requires EntriesOk(s) && LogOk(s) && LoopAt(s, i, Ticked)
    ensures LogOk(MoveLoop(s, i, Granted).(log := Then(s.log, i, true)))
  {
    var s' := MoveLoop(s, i, Granted).(log := Then(s.log, i, true));
    assert forall id: nat, e: nat :: ScrapingOn(s', id, e) <==> ScrapingOn(s, id, e);
    assert forall e: nat :: HasScraping(s, e) ==> HasScraping(s', e);
    forall id: nat ensures !ScrapingOn(s, id, i) {
      assert ScrapingOn(s, id, i) ==> ActiveOn(s, id, i);
    }
    assert !HasScraping(s, i);
  }

  /** Moves of a loop that neither grant nor leave the granted part. */
  lemma MoveLog(s: Sched, s': Sched, i: nat)
    requires LogOk(s) && s'.log == s.log && s'.scrapes == s.scrapes && |s'.busy| == |s.busy| && i < |s.loops|
    requires |s'.loops| == |s.loops| && s'.loops == s.loops[i := s'.loops[i]]
    requires Starting(s'.loops[i]) && s'.loops[i] != Ticked ==> Starting(s.loops[i]) && s.loops[i] != Ticked
    requires s'.loops[i] in {Unstarted, Selecting, Ticked} ==> s.loops[i] in {Unstarted, Selecting, Ticked}
    ensures LogOk(s')
  {
    assert forall id: nat, e: nat :: ScrapingOn(s', id, e) <==> ScrapingOn(s, id, e);
    assert forall e: nat :: HasScraping(s, e) ==> HasScraping(s', e);
  }

  lemma LoopLog(s: Sched, maxWorkers: nat, a: Action)
    requires EntriesOk(s) && LogOk(s) && OnLoop(a)
    ensures LogOk(Next(s, maxWorkers, a))
  {
    var s' := Next(s, maxWorkers, a);
    if s' != s {
      if a.Allow? && a.allowed {
        GrantLog(s, a.entry);
      } else {
        MoveLog(s, s', a.entry);
      }
    }
  }

  lemma RecordLog(s: Sched, id: nat)
    requires EntriesOk(s) && LogOk(s) && ScrapeAt(s, id, Scraping)
    ensures LogOk(MoveScrape(s, id, Sending).(log := Then(s.log, s.scrapes[id].entry, false)))
  {
    var e := s.scrapes[id].entry;
    var s' := MoveScrape(s, id, Sending).(log := Then(s.log, e, false));
    assert ActiveOn(s, id, e) && ScrapingOn(s, id, e);
    forall x: nat, i: nat | ScrapingOn(s', x, i) ensures i != e && ScrapingOn(s, x, i) {
      assert ActiveOn(s, x, i);
    }
    forall i: nat | HasScraping(s, i) && i != e ensures HasScraping(s', i) {
      var x: nat :| ScrapingOn(s, x, i);
      assert ScrapingOn(s', x, i);
    }
  }

  lemma ScrapeLog(s: Sched, maxWorkers: nat, a: Action)
    requires EntriesOk(s) && LogOk(s) && OnScrape(a)
    ensures LogOk(Next(s, maxWorkers, a))
  {
    var s' := Next(s, maxWorkers, a);
    if s' != s {
      if a.Record? {
        RecordLog(s, a.id);
      } else {
        QuietLog(s, s', a.id);
      }
    }
  }

  lemma QuietLog(s: Sched, s': Sched, id: nat)
    requires LogOk(s) && s'.loops == s.loops && s'.log == s.log && |s'.busy| == |s.busy| && id in s.scrapes
    requires id in s'.scrapes
    requires s'.scrapes == s.scrapes[id := s'.scrapes[id]]
    requires s.scrapes[id].step != Scraping && s'.scrapes[id].step != Scraping
    ensures LogOk(s')
  {
    assert forall x: nat, i: nat :: ScrapingOn(s', x, i) <==> ScrapingOn(s, x, i);
    assert forall i: nat :: HasScraping(s, i) ==> HasScraping(s', i);
  }

  lemma LogStep(s: Sched, maxWorkers: nat, a: Action)
    requires EntriesOk(s) && LogOk(s)
    ensures LogOk(Next(s, maxWorkers, a))
  {
    var s' := Next(s, maxWorkers, a);
    if OnLoop(a) {
      LoopLog(s, maxWorkers, a);
    } else if OnScrape(a) {
      ScrapeLog(s, maxWorkers, a);
    } else if a.Spawn? && s' != s {
      assert forall id: nat, i: nat :: ScrapingOn(s', id, i) <==>
        ScrapingOn(s, id, i) || (id == s.next && i == a.entry);
      assert ScrapingOn(s', s.next, a.entry);
      forall i: nat | HasScraping(s, i) ensures HasScraping(s', i) {
        var id: nat :| ScrapingOn(s, id, i);
        assert ScrapingOn(s', id, i);
      }
    } else {
      assert forall id: nat, i: nat :: ScrapingOn(s', id, i) <==> ScrapingOn(s, id, i);
      assert forall i: nat :: HasScraping(s, i) ==> HasScraping(s', i);
    }
  }

  lemma RunStepOk(s: Sched, maxWorkers: nat, a: Action)
    requires RunOk(s)
    ensures RunOk(Next(s, maxWorkers, a))
  {}

  lemma {:induction false} RunInv(run: Run, maxWorkers: nat)
    ensures Inv(After(run, maxWorkers), maxWorkers)
  {
    if run.Step? {
      RunInv(run.prev, maxWorkers);
      var s := After(run.prev, maxWorkers);
      EntriesStep(s, maxWorkers, run.action);
      SlotsStep(s, maxWorkers, run.action);
      LogStep(s, maxWorkers, run.action);
      RunStepOk(s, maxWorkers, run.action);
    }
  }

  /** The scrapes that run now. */
  function Running(s: Sched): set<nat> {
    set id | id in s.scrapes && Active(s.scrapes[id].step)
  }

  lemma {:induction false} OwnersCount(ids: set<nat>, owners: set<Owner>)
    requires forall id :: id in ids ==> ByScrape(id) in owners
    ensures |ids| <= |owners|
  {
    if ids != {} {
      var id :| id in ids;
      OwnersCount(ids - {id}, owners - {ByScrape(id)});
    }
  }

  /**
    In every interleaving of ticks, workers, scrapes, cancellation and shutdown: at most `maxWorkers`
    scrapes run and at most one of each entry, exactly one outcome is recorded between two grants
    of an entry, and once the results channel is closed no scrape is left that could send on it.
  */
  lemma SafeInEveryRun(run: Run, maxWorkers: nat)
    ensures
      var s := After(run, maxWorkers);
      && |Running(s)| <= maxWorkers
      && (forall id: nat, id': nat, i: nat :: ActiveOn(s, id, i) && ActiveOn(s, id', i) ==> id == id')
      && (forall i: nat :: i < |s.loops| && i < |s.busy| && s.loops[i] in {Selecting, Exited} ==>
            (s.busy[i] <==> HasActive(s, i)))
      && Alternates(s.log)
      && (s.run == Closed ==> forall id :: id in s.scrapes ==> s.scrapes[id].step == Finished)
      && (s.run == Closed ==> forall i :: 0 <= i < |s.loops| ==> s.loops[i] == Exited)
  {
    RunInv(run, maxWorkers);
    var s := After(run, maxWorkers);
    OwnersCount(Running(s), s.slots);
    forall id | s.run == Closed && id in s.scrapes ensures s.scrapes[id].step == Finished {
      assert ByScrape(id) !in s.added;
    }
  }

  // ---- what can come of it ----

  predicate Extends(run: Run, base: Run) {
    run == base || (run.Step? && Extends(run.prev, base))
  }

  lemma {:induction false} ExtendsFurther(run: Run, mid: Run, base: Run)
    requires Extends(run, mid) && Extends(mid, base)
    ensures Extends(run, base)
  {
    if run != mid { ExtendsFurther(run.prev, mid, base); }
  }

  /** A loop that waits for a tick, whose entry is idle while a worker is free. */
  predicate CanStart(s: Sched, maxWorkers: nat, i: nat) {
    LoopAt(s, i, Selecting) && i < |s.busy| && !s.busy[i] && |s.slots| < maxWorkers
  }

  lemma TickTakesSlot(s: Sched, maxWorkers: nat, i: nat)
    requires CanStart(s, maxWorkers, i)
    ensures var ticked := Next(s, maxWorkers, Tick(i));
            var granted := Next(ticked, maxWorkers, Allow(i, true));
            var t := Next(granted, maxWorkers, TakeSlot(i));
            LoopAt(t, i, Holding) && i < |t.busy|
  {
    var ticked := Next(s, maxWorkers, Tick(i));
    assert LoopAt(ticked, i, Ticked) && ticked.slots == s.slots && ticked.busy == s.busy;
    var granted := Next(ticked, maxWorkers, Allow(i, true));
    assert LoopAt(granted, i, Granted) && granted.slots == s.slots && granted.busy == s.busy;
  }

  lemma HeldSlotScrapes(s: Sched, maxWorkers: nat, i: nat)
    requires LoopAt(s, i, Holding) && i < |s.busy|
    ensures var flagged := Next(s, maxWorkers, SetBusy(i));
            var added := Next(flagged, maxWorkers, AddScrape(i));
            ScrapingOn(Next(added, maxWorkers, Spawn(i)), added.next, i)
  {
    var flagged := Next(s, maxWorkers, SetBusy(i));
    assert LoopAt(flagged, i, Flagged) && i < |flagged.busy|;
    var added := Next(flagged, maxWorkers, AddScrape(i));
    assert LoopAt(added, i, Added) && i < |added.busy|;
  }

  /** A tick of an idle entry that the breaker allows leads to a scrape of it when a worker is free. */
  lemma TickCanScrape(run: Run, maxWorkers: nat, i: nat) returns (longer: Run, id: nat)
    requires CanStart(After(run, maxWorkers), maxWorkers, i)
    ensures Extends(longer, run) && ScrapingOn(After(longer, maxWorkers), id, i)
  {
    hide Next, CanStart, ScrapingOn, LoopAt;
    var r1 := Step(run, Tick(i));
    var r2 := Step(r1, Allow(i, true));
    var r3 := Step(r2, TakeSlot(i));
    var r4 := Step(r3, SetBusy(i));
    var r5 := Step(r4, AddScrape(i));
    longer := Step(r5, Spawn(i));
    assert After(r2, maxWorkers) == Next(After(r1, maxWorkers), maxWorkers, Allow(i, true));
    assert After(r3, maxWorkers) == Next(After(r2, maxWorkers), maxWorkers, TakeSlot(i));
    assert After(r5, maxWorkers) == Next(After(r4, maxWorkers), maxWorkers, AddScrape(i));
    TickTakesSlot(After(run, maxWorkers), maxWorkers, i);
    HeldSlotScrapes(After(r3, maxWorkers), maxWorkers, i);
    id := After(r5, maxWorkers).next;
    assert Extends(r1, run);
    assert Extends(r2, run);
    assert Extends(r3, run);
    assert Extends(r4, run);
    assert Extends(r5, run);
  }

  /** A tick while a scrape of the entry runs starts nothing. */
  lemma BusyTickSkips(run: Run, maxWorkers: nat, id: nat, i: nat)
    requires ActiveOn(After(run, maxWorkers), id, i)
    ensures After(Step(run, Tick(i)), maxWorkers) == After(run, maxWorkers)
  {
    RunInv(run, maxWorkers);
  }

  // ---- the shutdown comes to its end ----

  function LoopLeft(p: LoopStep): nat {
    match p
    case Unstarted => 20
    case Ticked => 19
    case Granted => 18
    case Holding => 17
    case Flagged => 16
    case Added => 15
    case Selecting => 1
    case Exited => 0
  }

  function ScrapeLeft(p: ScrapeStep): nat {
    match p
    case Scraping => 5
    case Sending => 4
    case Returned => 3
    case Unflagged => 2
    case Released => 1
    case Finished => 0
  }

  function LoopsLeft(loops: seq<LoopStep>): nat {
    if loops == [] then 0 else LoopsLeft(loops[..|loops| - 1]) + LoopLeft(loops[|loops| - 1])
  }

  lemma {:induction false} LoopMovesOn(loops: seq<LoopStep>, i: nat, p: LoopStep)
    requires i < |loops|
    ensures LoopsLeft(loops[i := p]) == LoopsLeft(loops) - LoopLeft(loops[i]) + LoopLeft(p)
  {
    var n := |loops| - 1;
    if i < n {
      LoopMovesOn(loops[..n], i, p);
      assert loops[i := p][..n] == loops[..n][i := p];
    } else {
      assert loops[i := p][..n] == loops[..n];
    }
  }

  /** The next step of a loop that comes to its end. */
  function LoopNext(i: nat, p: LoopStep): Action {
    match p
    case Unstarted => Launch(i)
    case Selecting => Exit(i)
    case Ticked => Allow(i, false)
    case Granted => LeaveSlot(i)
    case Holding => SetBusy(i)
    case Flagged => AddScrape(i)
    case Added => Spawn(i)
    case Exited => Exit(i)
  }

  lemma LoopAdvances(s: Sched, maxWorkers: nat, i: nat)
    requires EntriesOk(s) && RunOk(s) && s.cancelled && i < |s.loops| && s.loops[i] != Exited
    ensures var t := Next(s, maxWorkers, LoopNext(i, s.loops[i]));
      && |t.loops| == |s.loops| && t.loops == s.loops[i := t.loops[i]] && LoopLeft(t.loops[i]) < LoopLeft(s.loops[i])
      && t.cancelled && t.run == s.run
  {}

  /** Once the run is cancelled, every loop can come to its end. */
  lemma {:induction false} LoopsCanExit(run: Run, maxWorkers: nat) returns (longer: Run)
    requires After(run, maxWorkers).cancelled
    ensures Extends(longer, run) && AllLoops(After(longer, maxWorkers), p => p == Exited)
    ensures After(longer, maxWorkers).run == After(run, maxWorkers).run
    decreases LoopsLeft(After(run, maxWorkers).loops)
  {
    hide Next;
    var s := After(run, maxWorkers);
    if i :| 0 <= i < |s.loops| && s.loops[i] != Exited {
      RunInv(run, maxWorkers);
      LoopAdvances(s, maxWorkers, i);
      var next := Step(run, LoopNext(i, s.loops[i]));
      LoopMovesOn(s.loops, i, After(next, maxWorkers).loops[i]);
      longer := LoopsCanExit(next, maxWorkers);
      assert Extends(next, run);
      ExtendsFurther(longer, next, run);
    } else {
      longer := run;
    }
  }

  function ScrapeNext(id: nat, p: ScrapeStep): Action {
    match p
    case Scraping => Record(id)
    case Sending => Send(id)
    case Returned => ClearBusy(id)
    case Unflagged => FreeSlot(id)
    case Released => DoneScrape(id)
    case Finished => DoneScrape(id)
  }

  lemma ScrapeAdvances(s: Sched, maxWorkers: nat, id: nat)
    requires EntriesOk(s) && id in s.scrapes && s.scrapes[id].step != Finished
    ensures var t := Next(s, maxWorkers, ScrapeNext(id, s.scrapes[id].step));
      && id in t.scrapes && ScrapeLeft(t.scrapes[id].step) == ScrapeLeft(s.scrapes[id].step) - 1
      && t.loops == s.loops && t.run == s.run
      && t.added == if t.scrapes[id].step == Finished then s.added - {ByScrape(id)} else s.added
  {}

  /** A scrape can come to its end, and is then no longer counted. */
  lemma {:induction false} ScrapeCanFinish(run: Run, maxWorkers: nat, id: nat) returns (longer: Run)
    requires id in After(run, maxWorkers).scrapes && After(run, maxWorkers).scrapes[id].step != Finished
    ensures Extends(longer, run)
    ensures var s, t := After(run, maxWorkers), After(longer, maxWorkers);
            t.loops == s.loops && t.run == s.run && t.added == s.added - {ByScrape(id)}
    decreases ScrapeLeft(After(run, maxWorkers).scrapes[id].step)
  {
    hide Next;
    var s := After(run, maxWorkers);
    RunInv(run, maxWorkers);
    ScrapeAdvances(s, maxWorkers, id);
    var next := Step(run, ScrapeNext(id, s.scrapes[id].step));
    assert Extends(next, run);
    if After(next, maxWorkers).scrapes[id].step == Finished {
      longer := next;
    } else {
      longer := ScrapeCanFinish(next, maxWorkers, id);
      ExtendsFurther(longer, next, run);
    }
  }

  /** Once the loops are gone, all scrapes can come to their ends. */
  lemma {:induction false} ScrapesCanFinish(run: Run, maxWorkers: nat) returns (longer: Run)
    requires AllLoops(After(run, maxWorkers), p => p == Exited)
    ensures Extends(longer, run) && After(longer, maxWorkers).added == {}
    ensures After(longer, maxWorkers).loops == After(run, maxWorkers).loops
    ensures After(longer, maxWorkers).run == After(run, maxWorkers).run
    decreases |After(run, maxWorkers).added|
  {
    hide Next;
    var s := After(run, maxWorkers);
    if o :| o in s.added {
      RunInv(run, maxWorkers);
      assert o.ByScrape?;
      var next := ScrapeCanFinish(run, maxWorkers, o.id);
      assert |s.added - {o}| < |s.added|;
      longer := ScrapesCanFinish(next, maxWorkers);
      ExtendsFurther(longer, next, run);
    } else {
      longer := run;
    }
  }

  lemma ClosesNow(s: Sched, maxWorkers: nat)
    requires RunOk(s) && AllLoops(s, p => p == Exited) && s.added == {}
    ensures Next(Next(Next(s, maxWorkers, AllLaunched), maxWorkers, LoopsDone), maxWorkers, CloseResults).run == Closed
  {}

  /** From every reachable state the scheduler can be stopped: its results can come to be closed. */
  lemma CanAlwaysClose(run: Run, maxWorkers: nat) returns (longer: Run)
    ensures Extends(longer, run) && After(longer, maxWorkers).run == Closed
  {
    hide Next;
    var cancelled := Step(run, Cancel);
    assert After(cancelled, maxWorkers).cancelled by { CancelIs(After(run, maxWorkers), maxWorkers); }
    var exited := LoopsCanExit(cancelled, maxWorkers);
    var finished := ScrapesCanFinish(exited, maxWorkers);
    RunInv(finished, maxWorkers);
    ClosesNow(After(finished, maxWorkers), maxWorkers);
    var launched := Step(finished, AllLaunched);
    var done := Step(launched, LoopsDone);
    assert After(done, maxWorkers) == Next(After(launched, maxWorkers), maxWorkers, LoopsDone);
    longer := Step(done, CloseResults);
    assert Extends(launched, finished) && Extends(done, finished);
    ExtendsFurther(longer, finished, exited);
    ExtendsFurther(longer, exited, cancelled);
    assert Extends(cancelled, run);
    ExtendsFurther(longer, cancelled, run);
  }

  lemma CancelIs(s: Sched, maxWorkers: nat)
    ensures Next(s, maxWorkers, Cancel).cancelled
  {}
}
