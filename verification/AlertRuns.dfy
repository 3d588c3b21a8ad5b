/**
  Whole runs of the alert engine: what memory, the alerts table and the notifier see together.

  A run is any sequence of the engine's operations, over any number of leadership terms, with any
  pattern of store failures. Only the leader of a term writes, so one memory stands for whichever
  engine leads: a new term drops it and reloads it from the table.
*/
module AlertRuns {
  import opened AlertEval
  import opened Basics

  /** The table keeps microseconds. */
  function Trunc(t: Time): Time {
    t - t % 1000
  }

  datatype RowKey = RowKey(key: string, start: Time)

  type Table = map<RowKey, Alert>

  function RowOf(a: Alert): RowKey {
    RowKey(a.key, Trunc(a.startedAt))
  }

  function ToRow(a: Alert): Alert {
    a.(startedAt := Trunc(a.startedAt), lastEvalAt := Trunc(a.lastEvalAt),
       resolvedAt := if a.resolvedAt.Some? then Some(Trunc(a.resolvedAt.value)) else None, suppressed := false)
  }

  /** On a conflict only the state, the value and the times are rewritten. */
  function Upsert(rows: Table, a: Alert): Table {
    var rk := RowOf(a);
    var row := ToRow(a);
    if rk in rows
    then rows[rk := rows[rk].(state := row.state, value := row.value, lastEvalAt := row.lastEvalAt,
      resolvedAt := row.resolvedAt)]
    else rows[rk := row]
  }

  /** What one write did. A lost reply is an error returned for a write that was made. */
  datatype Outcome = Written | Refused | LostReply

  datatype Event = Stored(alert: Alert) | Notified(alert: Alert)

  /** `log` records the acknowledged transitions and the calls of the notifier, in order. */
  datatype World = World(mem: Episodes, rows: Table, log: seq<Event>)

  datatype Op =
    | Sampled(rule: Rule, sample: Sample, now: Time, silenced: bool, outcome: Outcome)
    | Ended(key: string, now: Time, silenced: bool, outcome: Outcome)
    | Forgot(before: Time)
    | NewTerm(active: seq<Alert>, now: Time)

  /** A stored transition is notified unless a silence covers it. */
  function Events(a: Alert): seq<Event> {
    if a.suppressed then [Stored(a)] else [Stored(a), Notified(a)]
  }

  function Publish(w: World, key: string, r: StepResult, a: Alert, silenced: bool, outcome: Outcome): World {
    var out := a.(suppressed := silenced);
    var undone := UndoEpisode(r.states, key, Lookup(w.mem, key));
    match outcome
    case Written =>
      World(r.states, Upsert(w.rows, out), w.log + Events(out))
    case Refused => w.(mem := undone)
    case LostReply => w.(mem := undone, rows := Upsert(w.rows, out))
  }

  function Refresh(w: World, r: StepResult, a: Alert, outcome: Outcome): World {
    World(r.states, if outcome == Refused then w.rows else Upsert(w.rows, a), w.log)
  }

  function RestoreAll(mem: Episodes, active: seq<Alert>, now: Time): Episodes {
    if active == [] then mem
    else RestoreEpisode(RestoreAll(mem, active[..|active| - 1], now), active[|active| - 1], now)
  }

  /** What the engine does with the result of a step or an end of `key`. */
  function Conclude(w: World, key: string, r: StepResult, silenced: bool, outcome: Outcome): World {
    if r.alert.Some? && r.transition == NoChange && r.alert.value.state == Firing then
      Refresh(w, r, r.alert.value, outcome)
    else if r.alert.None? || r.transition in {NoChange, Opened, Cancelled} then w.(mem := r.states)
    else Publish(w, key, r, r.alert.value, silenced, outcome)
  }

  /** The key an operation is about, and what the evaluator answers for it. */
  function KeyOf(op: Op): string
    requires op.Sampled? || op.Ended?
  {
    if op.Sampled? then Key(op.rule, op.sample) else op.key
  }

  function ResultOf(mem: Episodes, op: Op): StepResult
    requires op.Sampled? || op.Ended?
  {
    if op.Sampled? then StepEpisode(mem, KeyOf(op), op.rule, op.sample, op.now) else EndEpisode(mem, op.key, op.now)
  }

  function Apply(w: World, op: Op): World {
    match op
    case Sampled(_, _, _, silenced, outcome) => Conclude(w, KeyOf(op), ResultOf(w.mem, op), silenced, outcome)
    case Ended(key, _, silenced, outcome) => Conclude(w, key, ResultOf(w.mem, op), silenced, outcome)
    case Forgot(before) => w.(mem := ForgetEpisodes(w.mem, before))
    case NewTerm(active, now) => w.(mem := RestoreAll(map[], active, now))
  }

  /** The operation makes a transition that has to be stored. */
  predicate Publishes(w: World, op: Op) {
    (op.Sampled? || op.Ended?) && IsTransition(ResultOf(w.mem, op).transition)
  }

  /** The answer to the query for open alerts: exactly the rows that are not resolved, the last evaluated first. */
  ghost predicate ActiveRows(rows: Table, active: seq<Alert>) {
    && (forall a :: a in active <==> exists rk :: rk in rows && rows[rk] == a && a.state != Resolved)
    && (forall i, j :: 0 <= i < j < |active| ==> active[i].lastEvalAt >= active[j].lastEvalAt)
  }

  ghost predicate Valid(w: World, op: Op) {
    op.NewTerm? ==> ActiveRows(w.rows, op.active)
  }

  /** A run, its last operation outermost. */
  datatype Run = Start | Then(prev: Run, op: Op)

  const EMPTY := World(map[], map[], [])

  function After(run: Run): World {
    match run
    case Start => EMPTY
    case Then(prev, op) => Apply(After(prev), op)
  }

  ghost predicate ValidRun(run: Run) {
    run.Then? ==> ValidRun(run.prev) && Valid(After(run.prev), run.op)
  }

  // ---- memory and table ----

  ghost predicate TableOk(rows: Table) {
    forall rk :: rk in rows ==>
      rows[rk].key == rk.key && rows[rk].startedAt == rk.start && Trunc(rk.start) == rk.start
        && rows[rk].state != Pending
  }

  ghost predicate WorldOk(w: World) {
    EpisodesOk(w.mem) && TableOk(w.rows)
  }

  /** The firing episodes, by key and truncated start, are exactly the rows in state firing. */
  ghost predicate Synced(w: World) {
    && (forall k :: k in w.mem && w.mem[k].firing ==>
          RowKey(k, Trunc(w.mem[k].first)) in w.rows && w.rows[RowKey(k, Trunc(w.mem[k].first))].state == Firing)
    && (forall rk :: rk in w.rows && w.rows[rk].state == Firing ==>
          rk.key in w.mem && w.mem[rk.key].firing && Trunc(w.mem[rk.key].first) == rk.start)
  }

  /** A transition was written but its reply was lost, so the engine undid it in memory. */
  predicate LosesTransition(w: World, op: Op) {
    Publishes(w, op) && op.outcome == LostReply
  }

  /** What a step or an end of `key` can do to the memory. */
  ghost predicate Shape(mem: Episodes, key: string, r: StepResult) {
    && (forall o :: o != key ==> (o in r.states <==> o in mem) && (o in mem ==> r.states[o] == mem[o]))
    && match r.transition
       case NoChange =>
         && (key in r.states <==> key in mem)
         && (key in mem ==> mem[key].firing == r.states[key].firing && mem[key].first == r.states[key].first)
         && (r.alert.Some? ==> key in r.states && r.alert.value == r.states[key].alert)
       case Opened => key !in mem && key in r.states && !r.states[key].firing
       case Fired =>
         && key in r.states && r.states[key].firing && r.alert == Some(r.states[key].alert)
         && (key in mem ==> !mem[key].firing && mem[key].first == r.states[key].first)
       case Cleared =>
         && key in mem && mem[key].firing && key !in r.states && r.alert.Some?
         && r.alert.value.key == mem[key].alert.key && r.alert.value.startedAt == mem[key].alert.startedAt
         && r.alert.value.state == Resolved
       case Cancelled => key in mem && !mem[key].firing && key !in r.states && r.alert.None?
  }

  lemma ShapeOf(mem: Episodes, op: Op)
    requires op.Sampled? || op.Ended?
    ensures Shape(mem, KeyOf(op), ResultOf(mem, op))
    ensures EpisodesOk(mem) ==> EpisodesOk(ResultOf(mem, op).states)
  {
    var k := KeyOf(op);
  }

  /** Undoing a step puts the whole memory back, since a step touches its own key only. */
  lemma UndoRestores(mem: Episodes, key: string, r: StepResult)
    requires Shape(mem, key, r)
    ensures UndoEpisode(r.states, key, Lookup(mem, key)) == mem
  {}

  predicate IsTransition(t: Transition) {
    t == Fired || t == Cleared
  }

  /** The effect of `Conclude`, field by field. */
  ghost predicate Concluded(w: World, r: StepResult, silenced: bool, outcome: Outcome, w': World) {
    if IsTransition(r.transition) then
      && r.alert.Some?
      && var sent := r.alert.value.(suppressed := silenced);
      && w'.mem == (if outcome == Written then r.states else w.mem)
      && w'.rows == (if outcome == Refused then w.rows else Upsert(w.rows, sent))
      && w'.log == (if outcome == Written then w.log + Events(sent) else w.log)
    else
      && w'.mem == r.states && w'.log == w.log
      && (w'.rows == w.rows ||
          (r.transition == NoChange && r.alert.Some? && r.alert.value.state == Firing
            && w'.rows == Upsert(w.rows, r.alert.value)))
  }

  lemma ConcludeEffect(w: World, key: string, r: StepResult, silenced: bool, outcome: Outcome)
    requires Shape(w.mem, key, r)
    ensures Concluded(w, r, silenced, outcome, Conclude(w, key, r, silenced, outcome))
  {
    UndoRestores(w.mem, key, r);
  }

  lemma ApplyEffect(w: World, op: Op)
    requires op.Sampled? || op.Ended?
    ensures Shape(w.mem, KeyOf(op), ResultOf(w.mem, op))
    ensures EpisodesOk(w.mem) ==> EpisodesOk(ResultOf(w.mem, op).states)
    ensures Concluded(w, ResultOf(w.mem, op), op.silenced, op.outcome, Apply(w, op))
  {
    ShapeOf(w.mem, op);
    ConcludeEffect(w, KeyOf(op), ResultOf(w.mem, op), op.silenced, op.outcome);
  }

  lemma {:induction false} RestoreAllEpisodes(active: seq<Alert>, now: Time)
    ensures EpisodesOk(RestoreAll(map[], active, now))
    ensures forall k :: k in RestoreAll(map[], active, now) ==> RestoreAll(map[], active, now)[k].alert in active
    ensures forall a :: a in active && a.state != Resolved ==> a.key in RestoreAll(map[], active, now)
  {
    if active != [] {
      RestoreAllEpisodes(active[..|active| - 1], now);
    }
  }

  lemma NewTermSync(w: World, op: Op)
    requires WorldOk(w) && Synced(w) && op.NewTerm? && Valid(w, op)
    ensures WorldOk(Apply(w, op)) && Synced(Apply(w, op))
    ensures forall k :: (k in w.mem && w.mem[k].firing) <==> (k in Apply(w, op).mem && Apply(w, op).mem[k].firing)
  {
    RestoreAllEpisodes(op.active, op.now);
    var m := Apply(w, op).mem;
    forall k | k in m
      ensures m[k].firing && RowKey(k, Trunc(m[k].first)) in w.rows
      ensures w.rows[RowKey(k, Trunc(m[k].first))].state == Firing
    {
      var rk :| rk in w.rows && w.rows[rk] == m[k].alert && w.rows[rk].state != Resolved;
      assert rk == RowKey(k, Trunc(m[k].first));
    }
    forall rk | rk in w.rows && w.rows[rk].state == Firing
      ensures rk.key in m && m[rk.key].firing && Trunc(m[rk.key].first) == rk.start
    {
      assert w.rows[rk] in op.active;
      var other :| other in w.rows && w.rows[other] == m[rk.key].alert && w.rows[other].state != Resolved;
      assert other.key == rk.key && w.rows[other].state == Firing;
      assert other.start == Trunc(w.mem[rk.key].first) == rk.start;
    }
    forall k | k in w.mem && w.mem[k].firing
      ensures k in m && m[k].firing
    {
      var rk := RowKey(k, Trunc(w.mem[k].first));
      assert rk in w.rows && w.rows[rk].state == Firing;
      assert rk.key in m;
    }
  }

  /** A write changes the row of its own episode only, and gives it the state it carries. */
  lemma UpsertRow(rows: Table, a: Alert)
    requires TableOk(rows) && a.state != Pending
    ensures TableOk(Upsert(rows, a))
    ensures RowOf(a) in Upsert(rows, a) && Upsert(rows, a)[RowOf(a)].state == a.state
    ensures forall rk :: rk != RowOf(a) ==> (rk in rows <==> rk in Upsert(rows, a))
    ensures forall rk :: rk != RowOf(a) && rk in rows ==> Upsert(rows, a)[rk] == rows[rk]
  {}

  /** After a write for a transition, the table follows the new memory and not the old one. */
  lemma WriteSync(w: World, key: string, r: StepResult, sent: Alert, w': World)
    requires WorldOk(w) && Synced(w) && Shape(w.mem, key, r) && EpisodesOk(r.states) && IsTransition(r.transition)
    requires RowOf(sent) == RowOf(r.alert.value) && sent.state == r.alert.value.state && w'.rows == Upsert(w.rows, sent)
    ensures w'.mem == r.states ==> Synced(w')
    ensures w'.mem == w.mem ==> !Synced(w')
  {
    UpsertRow(w.rows, sent);
    assert RowOf(sent).key == key;
    if w'.mem == r.states {
      forall rk | rk in w'.rows && w'.rows[rk].state == Firing
        ensures rk.key in w'.mem && w'.mem[rk.key].firing && Trunc(w'.mem[rk.key].first) == rk.start
      {
        if rk != RowOf(sent) {
          assert rk in w.rows && w.rows[rk].state == Firing;
        }
      }
      forall k | k in w'.mem && w'.mem[k].firing
        ensures RowKey(k, Trunc(w'.mem[k].first)) in w'.rows
        ensures w'.rows[RowKey(k, Trunc(w'.mem[k].first))].state == Firing
      {
        if k != key {
          assert RowKey(k, Trunc(w.mem[k].first)) != RowOf(sent);
        }
      }
    }
  }

  lemma QuietSync(w: World, key: string, r: StepResult, silenced: bool, outcome: Outcome, w': World)
    requires WorldOk(w) && Synced(w) && Shape(w.mem, key, r) && EpisodesOk(r.states) && !IsTransition(r.transition)
    requires Concluded(w, r, silenced, outcome, w')
    ensures Synced(w')
  {
    if w'.rows != w.rows {
      UpsertRow(w.rows, r.alert.value);
      assert RowOf(r.alert.value) == RowKey(key, Trunc(w.mem[key].first));
    }
  }

  lemma ConcludedOk(w: World, key: string, r: StepResult, silenced: bool, outcome: Outcome, w': World)
    requires WorldOk(w) && Shape(w.mem, key, r) && EpisodesOk(r.states) && Concluded(w, r, silenced, outcome, w')
    ensures WorldOk(w')
  {
    if w'.rows != w.rows {
      UpsertRow(w.rows, r.alert.value.(suppressed := silenced));
      UpsertRow(w.rows, r.alert.value);
    }
  }

  lemma ConcludedSync(w: World, key: string, r: StepResult, silenced: bool, outcome: Outcome, w': World)
    requires WorldOk(w) && Synced(w) && Shape(w.mem, key, r) && EpisodesOk(r.states)
    requires Concluded(w, r, silenced, outcome, w')
    ensures Synced(w') <==> !(IsTransition(r.transition) && outcome == LostReply)
  {
    if !IsTransition(r.transition) {
      QuietSync(w, key, r, silenced, outcome, w');
    } else if outcome != Refused {
      WriteSync(w, key, r, r.alert.value.(suppressed := silenced), w');
    }
  }

  lemma StepOk(w: World, op: Op)
    requires WorldOk(w)
    ensures WorldOk(Apply(w, op))
  {
    if op.NewTerm? {
      RestoreAllEpisodes(op.active, op.now);
    } else if !op.Forgot? {
      ApplyEffect(w, op);
      ConcludedOk(w, KeyOf(op), ResultOf(w.mem, op), op.silenced, op.outcome, Apply(w, op));
    }
  }

  /** One operation keeps memory and table in step unless it loses the reply to a transition. */
  lemma StepSync(w: World, op: Op)
    requires WorldOk(w) && Synced(w) && Valid(w, op)
    ensures Synced(Apply(w, op)) <==> !LosesTransition(w, op)
  {
    if op.NewTerm? {
      NewTermSync(w, op);
    } else if !op.Forgot? {
      ApplyEffect(w, op);
      ConcludedSync(w, KeyOf(op), ResultOf(w.mem, op), op.silenced, op.outcome, Apply(w, op));
    }
  }

  /** Memory and table agree after every operation of the run. */
  ghost predicate AlwaysSynced(run: Run) {
    Synced(After(run)) && (run.Then? ==> AlwaysSynced(run.prev))
  }

  /** No operation of the run loses the reply to a transition. */
  predicate Lossless(run: Run) {
    run.Then? ==> Lossless(run.prev) && !LosesTransition(After(run.prev), run.op)
  }

  lemma {:induction false} RunOk(run: Run)
    requires ValidRun(run)
    ensures WorldOk(After(run))
  {
    if run.Then? {
      RunOk(run.prev);
      StepOk(After(run.prev), run.op);
    }
  }

  /**
    The firing episodes are exactly the firing rows after every operation of a run, over every
    term, if and only if no transition is written with its reply lost.
  */
  lemma {:induction false} SyncedExactly(run: Run)
    requires ValidRun(run)
    ensures AlwaysSynced(run) <==> Lossless(run)
  {
    if run.Then? {
      SyncedExactly(run.prev);
      RunOk(run.prev);
      if Lossless(run.prev) {
        StepSync(After(run.prev), run.op);
      }
    }
  }

  /**
    The failing case. A rule without a duration whose write is made but not acknowledged is put back
    to no episode. Its next sample fires again, and the key then has two rows in state firing.
  */
  lemma LostReplyOrphansRow(w: World, op: Op, next: Op)
    requires WorldOk(w) && op.Sampled? && next.Sampled? && op.outcome == LostReply && next.outcome == Written
    requires op.rule == next.rule && op.rule.holdFor == 0 && KeyOf(op) == KeyOf(next) && KeyOf(op) !in w.mem
    requires Holds(op.rule, op.sample) && Holds(next.rule, next.sample)
    requires Trunc(StartOf(op.sample, op.now)) != Trunc(StartOf(next.sample, next.now))
    ensures
      var rows := Apply(Apply(w, op), next).rows;
      exists one: RowKey, two: RowKey :: one != two && one.key == two.key && one in rows && two in rows
                         && rows[one].state == Firing && rows[two].state == Firing
  {
    var k := KeyOf(op);
    var one := RowKey(k, Trunc(StartOf(op.sample, op.now)));
    var two := RowKey(k, Trunc(StartOf(next.sample, next.now)));
    LostFireWrites(w, op);
    var w' := Apply(w, op);
    StepOk(w, op);
    LostFireWrites(w', next);
  }

  /** A rule without a duration fires on an absent key, and the write leaves a firing row. */
  lemma LostFireWrites(w: World, op: Op)
    requires WorldOk(w) && op.Sampled? && op.rule.holdFor == 0 && Holds(op.rule, op.sample)
    requires KeyOf(op) !in w.mem && op.outcome != Refused
    ensures op.outcome == LostReply ==> Apply(w, op).mem == w.mem
    ensures var rk := RowKey(KeyOf(op), Trunc(StartOf(op.sample, op.now)));
      && rk in Apply(w, op).rows && Apply(w, op).rows[rk].state == Firing
      && forall o :: o != rk && o in w.rows ==> o in Apply(w, op).rows && Apply(w, op).rows[o] == w.rows[o]
  {
    ApplyEffect(w, op);
    var sent := ResultOf(w.mem, op).alert.value.(suppressed := op.silenced);
    UpsertRow(w.rows, sent);
  }

  // ---- the log of transitions ----

  /**
    Every call of the notifier follows the acknowledged write of the same transition, and every such
    write that no silence covers is followed by that call.
  */
  ghost predicate NotifiesStored(log: seq<Event>) {
    && (forall i :: 0 <= i < |log| && log[i].Notified? ==> i > 0 && log[i - 1] == Stored(log[i].alert))
    && (forall i :: 0 <= i < |log| && log[i].Stored? && !log[i].alert.suppressed ==>
          i + 1 < |log| && log[i + 1] == Notified(log[i].alert))
  }

  /** The row of the i-th event shows its transition, and a silenced one is not notified. */
  ghost predicate OnRecord(w: World, i: nat)
    requires i < |w.log|
  {
    var a := w.log[i].alert;
    RowOf(a) in w.rows && w.rows[RowOf(a)].state == a.state && (w.log[i].Notified? ==> !a.suppressed)
  }

  lemma ConcludedNotifies(w: World, r: StepResult, silenced: bool, outcome: Outcome, w': World)
    requires TableOk(w.rows) && NotifiesStored(w.log) && Concluded(w, r, silenced, outcome, w')
    requires IsTransition(r.transition) ==> r.alert.value.state != Pending
    ensures NotifiesStored(w'.log) && w.log <= w'.log
    ensures forall i :: |w.log| <= i < |w'.log| ==> OnRecord(w', i)
  {
    if w'.log != w.log {
      UpsertRow(w.rows, r.alert.value.(suppressed := silenced));
    }
  }

  lemma NotifyAfterStore(w: World, op: Op)
    requires WorldOk(w) && NotifiesStored(w.log)
    ensures NotifiesStored(Apply(w, op).log) && w.log <= Apply(w, op).log
    ensures forall i :: |w.log| <= i < |Apply(w, op).log| ==> OnRecord(Apply(w, op), i)
  {
    if op.Sampled? || op.Ended? {
      ApplyEffect(w, op);
      ConcludedNotifies(w, ResultOf(w.mem, op), op.silenced, op.outcome, Apply(w, op));
    }
  }

  /**
    Every operation of the run only adds to the log, and when it has added an event the row of that
    event shows its transition.
  */
  ghost predicate AlwaysOnRecord(run: Run) {
    run.Then? ==>
      && AlwaysOnRecord(run.prev) && After(run.prev).log <= After(run).log
      && forall i :: |After(run.prev).log| <= i < |After(run).log| ==> OnRecord(After(run), i)
  }

  /**
    In every run, whatever the store answers: when an operation has notified a transition, the table
    shows that transition, its write was acknowledged just before, and no silence covers it. A
    transition on record that no silence covers is notified.
  */
  lemma {:induction false} RunNotifiesStored(run: Run)
    requires ValidRun(run)
    ensures AlwaysOnRecord(run) && NotifiesStored(After(run).log)
  {
    if run.Then? {
      RunOk(run.prev);
      RunNotifiesStored(run.prev);
      NotifyAfterStore(After(run.prev), run.op);
    }
  }

  /** The last acknowledged transition of a key. */
  function LastOf(log: seq<Event>, k: string): Option<Alert> {
    if log == [] then None
    else
      var e := log[|log| - 1];
      if e.Stored? && e.alert.key == k then Some(e.alert) else LastOf(log[..|log| - 1], k)
  }

  /** The transitions of a key alternate, and a resolution carries the start of its firing. */
  ghost predicate Alternates(log: seq<Event>) {
    log == [] ||
    var pre, e := log[..|log| - 1], log[|log| - 1];
    && Alternates(pre)
    && (e.Stored? ==>
          var last := LastOf(pre, e.alert.key);
          if e.alert.state == Firing then last.None? || last.value.state == Resolved
          else e.alert.state == Resolved && last.Some? && last.value.state == Firing
               && Trunc(last.value.startedAt) == Trunc(e.alert.startedAt))
  }

  /** A key is firing in memory exactly when its last transition on record fired it. */
  ghost predicate LogSynced(w: World) {
    forall k ::
      if k in w.mem && w.mem[k].firing
      then LastOf(w.log, k).Some? && LastOf(w.log, k).value.state == Firing
           && Trunc(LastOf(w.log, k).value.startedAt) == Trunc(w.mem[k].first)
      else LastOf(w.log, k).None? || LastOf(w.log, k).value.state == Resolved
  }

  lemma LogAfter(log: seq<Event>, a: Alert, k: string)
    ensures LastOf(log + Events(a), k) == if k == a.key then Some(a) else LastOf(log, k)
    ensures Alternates(log + Events(a)) <==> Alternates(log + [Stored(a)])
  {
    var one := log + [Stored(a)];
    assert one[..|one| - 1] == log;
    if !a.suppressed {
      var two := log + Events(a);
      assert two[..|two| - 1] == one;
    }
  }

  lemma ConcludedLog(w: World, key: string, r: StepResult, silenced: bool, outcome: Outcome, w': World)
    requires EpisodesOk(w.mem) && EpisodesOk(r.states) && Shape(w.mem, key, r) && Concluded(w, r, silenced, outcome, w')
    requires LogSynced(w) && Alternates(w.log)
    ensures LogSynced(w') && Alternates(w'.log)
  {
    if IsTransition(r.transition) && outcome == Written {
      var sent := r.alert.value.(suppressed := silenced);
      var one := w.log + [Stored(sent)];
      assert one[..|one| - 1] == w.log;
      assert Alternates(one);
      LogAfter(w.log, sent, key);
      forall k { LogAfter(w.log, sent, k); }
    }
  }

  // ---- what a new term reloads ----

  /** The last entry of a key, which is the one a reload leaves in memory. */
  function LastEntry(active: seq<Alert>, k: string): Option<Alert> {
    if active == [] then None
    else if active[|active| - 1].key == k then Some(active[|active| - 1])
    else LastEntry(active[..|active| - 1], k)
  }

  predicate FiringAt(mem: Episodes, k: string) {
    k in mem && mem[k].firing
  }

  /**
    For each key, the row that is read last is the one of the episode firing in memory, and there is
    none where no episode is firing.
  */
  ghost predicate Reloads(mem: Episodes, active: seq<Alert>) {
    forall k ::
      if FiringAt(mem, k)
      then LastEntry(active, k).Some? && LastEntry(active, k).value.startedAt == Trunc(mem[k].first)
      else LastEntry(active, k).None?
  }

  lemma {:induction false} RestoreAllAt(active: seq<Alert>, now: Time, k: string)
    requires forall a :: a in active ==> a.state == Firing
    ensures var m, last := RestoreAll(map[], active, now), LastEntry(active, k);
            && (k in m <==> last.Some?)
            && (last.Some? ==> m[k] == Episode(last.value.startedAt, now, true, last.value))
  {
    if active != [] {
      RestoreAllAt(active[..|active| - 1], now, k);
    }
  }

  lemma {:induction false} LastEntryIs(active: seq<Alert>, k: string)
    ensures LastEntry(active, k).Some? <==> exists a :: a in active && a.key == k
    ensures var last := LastEntry(active, k);
            last.Some? ==> last.value in active && last.value.key == k
    ensures var last := LastEntry(active, k);
            last.Some? && (forall i, j :: 0 <= i < j < |active| ==> active[i].lastEvalAt >= active[j].lastEvalAt) ==>
              forall a :: a in active && a.key == k ==> last.value.lastEvalAt <= a.lastEvalAt
  {
    if active != [] {
      var front := active[..|active| - 1];
      assert active == front + [active[|active| - 1]];
      LastEntryIs(front, k);
    }
  }

  /** Of the firing rows of a key, a reload takes the one that was evaluated least recently. */
  lemma ReloadTakesOldest(w: World, op: Op, k: string)
    requires WorldOk(w) && op.NewTerm? && Valid(w, op)
    ensures
      var m := Apply(w, op).mem;
      && (k in m <==> exists rk :: rk in w.rows && rk.key == k && w.rows[rk].state == Firing)
      && (k in m ==> m[k].firing && RowKey(k, m[k].first) in w.rows && w.rows[RowKey(k, m[k].first)] == m[k].alert)
      && (k in m ==> forall rk :: rk in w.rows && rk.key == k && w.rows[rk].state == Firing ==>
            m[k].alert.lastEvalAt <= w.rows[rk].lastEvalAt)
  {
    ActiveFire(w, op.active);
    RestoreAllAt(op.active, op.now, k);
    LastEntryIs(op.active, k);
    forall rk | rk in w.rows && rk.key == k && w.rows[rk].state == Firing
      ensures w.rows[rk] in op.active && w.rows[rk].key == k
    {}
  }

  lemma ActiveFire(w: World, active: seq<Alert>)
    requires WorldOk(w) && ActiveRows(w.rows, active)
    ensures forall a :: a in active ==>
      a.state == Firing && RowKey(a.key, a.startedAt) in w.rows && w.rows[RowKey(a.key, a.startedAt)] == a
      && Trunc(a.startedAt) == a.startedAt
  {
    forall a | a in active
      ensures a.state == Firing && RowKey(a.key, a.startedAt) in w.rows && w.rows[RowKey(a.key, a.startedAt)] == a
              && Trunc(a.startedAt) == a.startedAt
    {
      var rk :| rk in w.rows && w.rows[rk] == a && a.state != Resolved;
      assert rk == RowKey(a.key, a.startedAt);
    }
  }

  /** Where memory and table agree, every answer of the table reloads the memory. */
  lemma SyncedReloads(w: World, active: seq<Alert>)
    requires WorldOk(w) && Synced(w) && ActiveRows(w.rows, active)
    ensures Reloads(w.mem, active)
  {
    ActiveFire(w, active);
    forall k
      ensures if FiringAt(w.mem, k)
              then LastEntry(active, k).Some? && LastEntry(active, k).value.startedAt == Trunc(w.mem[k].first)
              else LastEntry(active, k).None?
    {
      LastEntryIs(active, k);
      if FiringAt(w.mem, k) {
        assert w.rows[RowKey(k, Trunc(w.mem[k].first))] in active;
      }
    }
  }

  /** A new term keeps track of the log exactly when it reloads the memory it replaces. */
  lemma NewTermLog(w: World, op: Op)
    requires WorldOk(w) && op.NewTerm? && Valid(w, op) && LogSynced(w)
    ensures LogSynced(Apply(w, op)) <==> Reloads(w.mem, op.active)
  {
    ActiveFire(w, op.active);
    var w' := Apply(w, op);
    forall k
      ensures k in w'.mem <==> LastEntry(op.active, k).Some?
      ensures k in w'.mem ==> FiringAt(w'.mem, k) && w'.mem[k].first == LastEntry(op.active, k).value.startedAt
      ensures k in w'.mem ==> Trunc(w'.mem[k].first) == w'.mem[k].first
    {
      RestoreAllAt(op.active, op.now, k);
      LastEntryIs(op.active, k);
    }
    assert forall k :: FiringAt(w.mem, k) ==>
      LastOf(w.log, k).Some? && LastOf(w.log, k).value.state == Firing
      && Trunc(LastOf(w.log, k).value.startedAt) == Trunc(w.mem[k].first);
  }

  // ---- the transitions alternate ----

  /** Every operation keeps track of the log, but for a new term that does not reload the memory it replaces. */
  lemma StepLog(w: World, op: Op)
    requires WorldOk(w) && Valid(w, op) && LogSynced(w) && Alternates(w.log)
    ensures Alternates(Apply(w, op).log)
    ensures LogSynced(Apply(w, op)) <==> (op.NewTerm? ==> Reloads(w.mem, op.active))
  {
    if op.NewTerm? {
      NewTermLog(w, op);
    } else if !op.Forgot? {
      ApplyEffect(w, op);
      ConcludedLog(w, KeyOf(op), ResultOf(w.mem, op), op.silenced, op.outcome, Apply(w, op));
    }
  }

  /** Every new term of the run reloads the memory of the term before it. */
  ghost predicate TermsReload(run: Run) {
    run.Then? ==> TermsReload(run.prev) && (run.op.NewTerm? ==> Reloads(After(run.prev).mem, run.op.active))
  }

  /** Memory and log agree after every operation of the run. */
  ghost predicate AlwaysLogged(run: Run) {
    LogSynced(After(run)) && (run.Then? ==> AlwaysLogged(run.prev))
  }

  /** Whatever operation of the same term comes next, the transitions on record still alternate. */
  ghost predicate NextAlternates(w: World) {
    forall op: Op :: !op.NewTerm? ==> Alternates(Apply(w, op).log)
  }

  ghost predicate AlwaysAlternates(run: Run) {
    NextAlternates(After(run)) && (run.Then? ==> AlwaysAlternates(run.prev))
  }

  /** A key is made of the rule and the subject of its alert. */
  predicate Formed(a: Alert) {
    a.key == a.ruleId + "/" + a.subject
  }

  ghost predicate AllFormed(w: World) {
    && (forall k :: k in w.mem ==> Formed(w.mem[k].alert))
    && (forall rk :: rk in w.rows ==> Formed(w.rows[rk]))
    && (forall i :: 0 <= i < |w.log| ==> Formed(w.log[i].alert))
  }

  lemma FormedResult(w: World, op: Op)
    requires AllFormed(w) && (op.Sampled? || op.Ended?)
    ensures var r := ResultOf(w.mem, op);
            (forall k :: k in r.states ==> Formed(r.states[k].alert)) && (r.alert.Some? ==> Formed(r.alert.value))
  {}

  lemma FormedRow(rows: Table, a: Alert)
    requires (forall rk :: rk in rows ==> Formed(rows[rk])) && Formed(a)
    ensures forall rk :: rk in Upsert(rows, a) ==> Formed(Upsert(rows, a)[rk])
  {}

  lemma ConcludedFormed(w: World, r: StepResult, silenced: bool, outcome: Outcome, w': World)
    requires AllFormed(w) && Concluded(w, r, silenced, outcome, w')
    requires (forall k :: k in r.states ==> Formed(r.states[k].alert)) && (r.alert.Some? ==> Formed(r.alert.value))
    ensures AllFormed(w')
  {
    hide Upsert;
    if r.alert.Some? {
      var sent := r.alert.value.(suppressed := silenced);
      FormedRow(w.rows, r.alert.value);
      FormedRow(w.rows, sent);
      assert forall i :: 0 <= i < |Events(sent)| ==> Events(sent)[i].alert == sent;
    }
  }

  lemma FormedStep(w: World, op: Op)
    requires AllFormed(w) && Valid(w, op)
    ensures AllFormed(Apply(w, op))
  {
    if op.NewTerm? {
      RestoreAllEpisodes(op.active, op.now);
    } else if !op.Forgot? {
      hide AllFormed, Shape, Concluded;
      ApplyEffect(w, op);
      FormedResult(w, op);
      ConcludedFormed(w, ResultOf(w.mem, op), op.silenced, op.outcome, Apply(w, op));
    }
  }

  lemma {:induction false} RunFormed(run: Run)
    requires ValidRun(run)
    ensures AllFormed(After(run))
  {
    if run.Then? {
      RunFormed(run.prev);
      FormedStep(After(run.prev), run.op);
    }
  }

  lemma {:induction false} LastOfIn(log: seq<Event>, k: string)
    ensures LastOf(log, k).Some? ==>
      exists i :: 0 <= i < |log| && log[i] == Stored(LastOf(log, k).value) && log[i].alert.key == k
  {
    if log != [] {
      LastOfIn(log[..|log| - 1], k);
    }
  }

  lemma StoredNext(w: World, w': World, a: Alert)
    requires w'.log == w.log + Events(a) && Alternates(w'.log)
    ensures Alternates(w.log + [Stored(a)])
  {
    LogAfter(w.log, a, a.key);
  }

  /** Ending an episode that fires in memory puts its resolution on record. */
  lemma EndTells(w: World, k: string)
    requires EpisodesOk(w.mem) && FiringAt(w.mem, k) && NextAlternates(w)
    ensures var last := LastOf(w.log, k);
            last.Some? && last.value.state == Firing && Trunc(last.value.startedAt) == Trunc(w.mem[k].first)
  {
    var op := Ended(k, 0, true, Written);
    ApplyEffect(w, op);
    var sent := ResultOf(w.mem, op).alert.value.(suppressed := true);
    StoredNext(w, Apply(w, op), sent);
    var one := w.log + [Stored(sent)];
    assert one[..|one| - 1] == w.log;
  }

  /** A rule without a duration that fires on the key of a. */
  function FireAgain(mem: Episodes, a: Alert): Op {
    Sampled(Rule(a.ruleId, "", GT, 0.0, 0, "event", ""), Sample(a.subject, 0.0, None, false),
            if a.key in mem then mem[a.key].first else 0, true, Written)
  }

  /** Firing an alert that does not fire in memory puts its firing on record. */
  lemma FireTells(w: World, a: Alert)
    requires EpisodesOk(w.mem) && Formed(a) && !FiringAt(w.mem, a.key) && NextAlternates(w)
    ensures LastOf(w.log, a.key).None? || LastOf(w.log, a.key).value.state == Resolved
  {
    var op := FireAgain(w.mem, a);
    assert KeyOf(op) == a.key && Holds(op.rule, op.sample);
    ApplyEffect(w, op);
    var sent := ResultOf(w.mem, op).alert.value.(suppressed := true);
    StoredNext(w, Apply(w, op), sent);
    var one := w.log + [Stored(sent)];
    assert one[..|one| - 1] == w.log && sent.state == Firing && sent.key == a.key;
  }

  /** If no next operation of the term can break the alternation, memory and log agree. */
  lemma AlternatesNeedsLog(w: World)
    requires EpisodesOk(w.mem) && AllFormed(w) && NextAlternates(w)
    ensures LogSynced(w) && Alternates(w.log)
  {
    assert Apply(w, Forgot(0)).log == w.log;
    forall k
      ensures if FiringAt(w.mem, k)
              then LastOf(w.log, k).Some? && LastOf(w.log, k).value.state == Firing
                   && Trunc(LastOf(w.log, k).value.startedAt) == Trunc(w.mem[k].first)
              else LastOf(w.log, k).None? || LastOf(w.log, k).value.state == Resolved
    {
      LastOfIn(w.log, k);
      if FiringAt(w.mem, k) {
        EndTells(w, k);
      } else if LastOf(w.log, k).Some? {
        FireTells(w, LastOf(w.log, k).value);
      }
    }
  }

  lemma LogAlternatesNext(w: World)
    requires WorldOk(w) && LogSynced(w) && Alternates(w.log)
    ensures NextAlternates(w)
  {
    forall op: Op | !op.NewTerm? ensures Alternates(Apply(w, op).log) {
      StepLog(w, op);
    }
  }

  /**
    The acknowledged transitions of each key alternate between fired and resolved, and a resolution
    has the start of the firing it ends, throughout a run and whatever operation its terms go on with,
    if and only if every new term reloads the memory it replaces. Memory and log agree after every
    operation of exactly these runs.
  */
  lemma {:induction false} TransitionsAlternate(run: Run)
    requires ValidRun(run)
    ensures AlwaysAlternates(run) <==> TermsReload(run)
    ensures AlwaysLogged(run) <==> TermsReload(run)
    ensures TermsReload(run) ==> Alternates(After(run).log)
  {
    RunOk(run);
    RunFormed(run);
    if run.Then? {
      TransitionsAlternate(run.prev);
      RunOk(run.prev);
      if TermsReload(run.prev) {
        StepLog(After(run.prev), run.op);
      }
    }
    if AlwaysAlternates(run) {
      AlternatesNeedsLog(After(run));
    }
    if TermsReload(run) {
      LogAlternatesNext(After(run));
    }
  }

  /** A run that loses no reply is such a run. */
  lemma {:induction false} LosslessTerms(run: Run)
    requires ValidRun(run) && Lossless(run)
    ensures TermsReload(run)
  {
    if run.Then? {
      LosslessTerms(run.prev);
      SyncedExactly(run.prev);
      RunOk(run.prev);
      if run.op.NewTerm? {
        SyncedReloads(After(run.prev), run.op.active);
      }
    }
  }

  /** A rule without a duration fires on a key without an episode, and the reply is lost. */
  predicate LosesFire(w: World, fire: Op) {
    && fire.Sampled? && fire.rule.holdFor == 0 && Holds(fire.rule, fire.sample) && fire.outcome == LostReply
    && KeyOf(fire) !in w.mem
  }

  /** An unacknowledged firing is reloaded by the next term, and the log does not know of it. */
  lemma LostFireReloads(w: World, fire: Op, term: Op)
    requires WorldOk(w) && LosesFire(w, fire) && term.NewTerm? && Valid(Apply(w, fire), term)
    ensures var w' := Apply(Apply(w, fire), term);
            w'.log == w.log && KeyOf(fire) in w'.mem && w'.mem[KeyOf(fire)].firing && EpisodesOk(w'.mem)
  {
    var lost := Apply(w, fire);
    ApplyEffect(w, fire);
    LostFireWrites(w, fire);
    StepOk(w, fire);
    RestoreAllEpisodes(term.active, term.now);
    assert lost.rows[RowKey(KeyOf(fire), Trunc(StartOf(fire.sample, fire.now)))] in term.active;
    var a := Apply(lost, term).mem[KeyOf(fire)].alert;
    assert a in term.active;
    var rk :| rk in lost.rows && lost.rows[rk] == a && a.state != Resolved;
  }

  lemma ResolvesUnfired(w: World, end: Op)
    requires EpisodesOk(w.mem) && end.Ended? && end.outcome == Written && end.key in w.mem && w.mem[end.key].firing
    requires LastOf(w.log, end.key).None? || LastOf(w.log, end.key).value.state == Resolved
    ensures !Alternates(Apply(w, end).log)
  {
    ApplyEffect(w, end);
    var sent := ResultOf(w.mem, end).alert.value.(suppressed := end.silenced);
    var one := w.log + [Stored(sent)];
    assert one[..|w.log|] == w.log && !Alternates(one);
    LogAfter(w.log, sent, end.key);
  }

  /**
    The failing family. After any run that has kept track of the log, a firing whose reply is lost is
    reloaded by the next term, and ending it puts a resolution on record without its firing.
  */
  lemma LostReplyBreaksAlternation(run: Run, fire: Op, term: Op, end: Op)
    requires ValidRun(run) && AlwaysLogged(run) && LosesFire(After(run), fire)
    requires term.NewTerm? && Valid(Apply(After(run), fire), term)
    requires end.Ended? && end.key == KeyOf(fire) && end.outcome == Written
    ensures ValidRun(Then(Then(Then(run, fire), term), end))
    ensures !Alternates(After(Then(Then(Then(run, fire), term), end)).log)
  {
    RunOk(run);
    LostFireReloads(After(run), fire, term);
    var begun := Then(Then(run, fire), term);
    assert ValidRun(begun.prev) && After(begun) == Apply(Apply(After(run), fire), term);
    ResolvesUnfired(After(begun), end);
  }

  // ---- how an episode begins and ends ----

  /** A firing episode leaves memory only on a false sample of its key, an end of it, or a new term. */
  lemma LeavesFiring(w: World, op: Op, k: string)
    requires k in w.mem && w.mem[k].firing
    requires !(k in Apply(w, op).mem && Apply(w, op).mem[k].firing && Apply(w, op).mem[k].first == w.mem[k].first)
    ensures || (SampleOf(op, k) && !Holds(op.rule, op.sample) && op.outcome == Written)
            || (op.Ended? && op.key == k && op.outcome == Written)
            || op.NewTerm?
  {
    if op.Sampled? || op.Ended? {
      ApplyEffect(w, op);
    }
  }

  predicate SampleOf(op: Op, k: string) {
    op.Sampled? && KeyOf(op) == k
  }

  /** Nothing from `op` reports k false or closes its episode. */
  predicate LeavesOpen(op: Op, k: string) {
    (SampleOf(op, k) ==> Holds(op.rule, op.sample)) && !(op.Ended? && op.key == k) && !op.NewTerm?
  }

  /** A true sample opened the episode of k at `first`, and nothing since reported k false or closed it. */
  predicate OpenSince(run: Run, k: string, first: Time) {
    run.Then? &&
    if k in After(run.prev).mem then LeavesOpen(run.op, k) && OpenSince(run.prev, k, first)
    else SampleOf(run.op, k) && Holds(run.op.rule, run.op.sample) && StartOf(run.op.sample, run.op.now) == first
  }

  lemma PendingStep(w: World, op: Op, k: string)
    requires WorldOk(w) && Valid(w, op)
    requires k in Apply(w, op).mem && !Apply(w, op).mem[k].firing
    ensures LeavesOpen(op, k)
    ensures if k in w.mem then !w.mem[k].firing && w.mem[k].first == Apply(w, op).mem[k].first
            else SampleOf(op, k) && Apply(w, op).mem[k].first == StartOf(op.sample, op.now)
  {
    if op.NewTerm? {
      RestoreAllEpisodes(op.active, op.now);
    } else if !op.Forgot? {
      ApplyEffect(w, op);
    }
  }

  /** A pending episode was opened by a true sample, and no false sample of it came since. */
  lemma {:induction false} PendingHistory(run: Run, k: string)
    requires ValidRun(run) && k in After(run).mem && !After(run).mem[k].firing
    ensures OpenSince(run, k, After(run).mem[k].first)
  {
    RunOk(run.prev);
    PendingStep(After(run.prev), run.op, k);
    if k in After(run.prev).mem {
      PendingHistory(run.prev, k);
    }
  }

  /**
    A rule with a positive duration fires only on an episode that an earlier true sample opened, at
    least that long after its start, with no false sample of the key in between.
  */
  lemma FiresAfterFor(run: Run, r: Rule, s: Sample, now: Time)
    requires ValidRun(run) && r.holdFor > 0
    requires StepEpisode(After(run).mem, Key(r, s), r, s, now).transition == Fired
    ensures exists first :: OpenSince(run, Key(r, s), first) && now - first >= r.holdFor
  {
    PendingHistory(run, Key(r, s));
  }

  // ---- when an alert fires ----

  /** The episode fires already, or has lasted as long as its rule asks. */
  predicate Ripe(w: World, op: Op)
    requires op.Sampled?
  {
    var k := KeyOf(op);
    if k in w.mem then w.mem[k].firing || op.now - w.mem[k].first >= op.rule.holdFor else op.rule.holdFor == 0
  }

  /**
    After a sample of a metric whose write succeeds, the alert fires if and only if the value is on the
    side of the threshold that the rule watches, and that for as long as it asks.
  */
  lemma MetricFiresExactly(w: World, op: Op)
    requires op.Sampled? && op.outcome == Written && op.rule.eventType == "" && !op.sample.inapplicable
    ensures
      var fires, v, t := FiringAt(Apply(w, op).mem, KeyOf(op)), op.sample.value, op.rule.threshold;
      match op.rule.comparator
      case GT => fires <==> v > t && Ripe(w, op)
      case GE => fires <==> v >= t && Ripe(w, op)
      case LT => fires <==> v < t && Ripe(w, op)
      case LE => fires <==> v <= t && Ripe(w, op)
      case EQ => fires <==> v == t && Ripe(w, op)
      case NE => fires <==> v != t && Ripe(w, op)
      case Unknown => !fires
  {
    ApplyEffect(w, op);
  }

  /** An event fires whatever its value is; where the rule does not apply, nothing is left of the alert. */
  lemma EventFiresExactly(w: World, op: Op)
    requires op.Sampled? && op.outcome == Written
    ensures op.sample.inapplicable ==> KeyOf(op) !in Apply(w, op).mem
    ensures op.rule.eventType != "" && !op.sample.inapplicable ==>
      KeyOf(op) in Apply(w, op).mem && (FiringAt(Apply(w, op).mem, KeyOf(op)) <==> Ripe(w, op))
  {
    ApplyEffect(w, op);
  }

  /** The table keeps times to the microsecond, and never rounds them up. */
  lemma TruncKeeps(t: Time)
    ensures Trunc(t) % 1000 == 0 && Trunc(t) <= t < Trunc(t) + 1000 && Trunc(Trunc(t)) == Trunc(t)
  {}

  /** The row of an alert that fires on its first sample tells what the rule and the sample say. */
  lemma FiredRow(w: World, op: Op)
    requires op.Sampled? && op.outcome != Refused && op.rule.holdFor == 0 && Holds(op.rule, op.sample)
    requires KeyOf(op) !in w.mem
    ensures
      var start := if op.sample.ts.Some? then op.sample.ts.value else op.now;
      var rk := RowKey(op.rule.id + "/" + op.sample.subject, Trunc(start));
      && rk in Apply(w, op).rows
      && (rk !in w.rows ==>
            Apply(w, op).rows[rk] == Alert(rk.key, op.rule.id, op.rule.severity, Firing, op.sample.subject,
                                           op.sample.value, op.rule.summary, rk.start, Trunc(op.now), None, false))
      && (rk in w.rows ==>
            Apply(w, op).rows[rk] == w.rows[rk].(state := Firing, value := op.sample.value,
                                                 lastEvalAt := Trunc(op.now), resolvedAt := None))
  {
    ApplyEffect(w, op);
  }

  /** A firing alert that is sampled true again has its row brought up to date, and nothing else changes. */
  lemma RefreshedRow(w: World, op: Op)
    requires WorldOk(w) && op.Sampled? && op.outcome != Refused && Holds(op.rule, op.sample)
    requires FiringAt(w.mem, KeyOf(op)) && RowKey(KeyOf(op), Trunc(w.mem[KeyOf(op)].first)) in w.rows
    ensures
      var rk := RowKey(KeyOf(op), Trunc(w.mem[KeyOf(op)].first));
      && rk in Apply(w, op).rows && Apply(w, op).log == w.log
      && Apply(w, op).rows == w.rows[rk := Apply(w, op).rows[rk]]
      && Apply(w, op).rows[rk].state == Firing && Apply(w, op).rows[rk].value == op.sample.value
      && Apply(w, op).rows[rk].lastEvalAt == Trunc(op.now)
  {
    ApplyEffect(w, op);
  }

  /** The row of an alert that is closed is the row that fired, resolved now. */
  lemma ResolvedRow(w: World, op: Op)
    requires WorldOk(w) && op.Ended? && op.outcome != Refused && FiringAt(w.mem, op.key)
    requires RowKey(op.key, Trunc(w.mem[op.key].first)) in w.rows
    ensures
      var rk := RowKey(op.key, Trunc(w.mem[op.key].first));
      && rk in Apply(w, op).rows && Apply(w, op).rows == w.rows[rk := Apply(w, op).rows[rk]]
      && Apply(w, op).rows[rk] == w.rows[rk].(state := Resolved, value := w.mem[op.key].alert.value,
           lastEvalAt := Trunc(op.now), resolvedAt := Some(Trunc(op.now)))
  {
    ApplyEffect(w, op);
  }

  // ---- what a pass closes ----

  /**
    The promise that a pass closes nothing it saw. A true sample leaves its episode sampled now, so
    no cutoff up to now selects it, exactly when the write of its transition did not fail, or the
    episode had already been sampled in this pass.
  */
  lemma SeenNow(w: World, op: Op)
    requires op.Sampled? && Holds(op.rule, op.sample)
    ensures
      var k := KeyOf(op);
      (k in Apply(w, op).mem && Apply(w, op).mem[k].seen == op.now)
      <==> (!(Publishes(w, op) && op.outcome != Written) || (k in w.mem && w.mem[k].seen == op.now))
  {
    ApplyEffect(w, op);
  }
}
