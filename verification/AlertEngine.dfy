/** One pass of the alert engine, which refines a run of `AlertRuns` and drives a notifier. */
module AlertEngine {
  import opened AlertEval
  import opened AlertRuns
  import opened Basics
  import opened Notifier

  const SECOND: Time := 1_000_000_000
  const METRIC_GRACE: Time := 600 * SECOND
  const DEFAULT_INTERVAL: Time := 30 * SECOND
  const FORGET_AFTER: Time := 3600 * SECOND

  /** The event types whose condition outlives the event that opened it. */
  const SPELL_EVENTS := {"instance_unreachable", "no_primary_in_cluster", "slot_inactive", "slot_lost"}

  function Lookback(interval: Time): Time {
    var i := if interval <= 0 then DEFAULT_INTERVAL else interval;
    if 2 * i > 120 * SECOND then 2 * i else 120 * SECOND
  }

  function EndGrace(r: Rule, interval: Time): Time {
    if r.eventType in SPELL_EVENTS then Lookback(interval)
    else if r.eventType != "" then 0
    else METRIC_GRACE
  }

  // ---- what a pass closes ----

  /**
    How long an episode may go without a sample: that of a metric ten minutes, that of an event not at
    all, and about one that outlives its event a source is asked after two passes or two minutes.
  */
  lemma GraceExact(e: Episode, r: Rule, now: Time, interval: Time)
    requires e.alert.ruleId == r.id
    ensures
      var closes := Stale(e, id => id == r.id, now - EndGrace(r, interval));
      var quiet := now - e.seen;
      && (r.eventType == "" ==> (closes <==> quiet > 600 * SECOND))
      && (r.eventType != "" && r.eventType !in SPELL_EVENTS ==> (closes <==> quiet > 0))
      && (r.eventType in SPELL_EVENTS ==>
            (closes <==> quiet > 120 * SECOND && quiet > 2 * if interval > 0 then interval else 30 * SECOND))
  {}

  /** The episode of the sample is one that the end of its rule's evaluation closes. */
  predicate ClosedNext(w: World, op: Op, interval: Time)
    requires op.Sampled?
  {
    var k := KeyOf(op);
    k in w.mem && Stale(w.mem[k], id => id == op.rule.id, op.now - EndGrace(op.rule, interval))
  }

  /**
    The promise that a pass closes nothing it saw. After a true sample its own pass closes the episode
    if and only if the write of its transition failed and the episode was due to be closed before.
  */
  lemma SeenIsClosed(w: World, op: Op, interval: Time)
    requires op.Sampled? && Holds(op.rule, op.sample)
    ensures ClosedNext(Apply(w, op), op, interval) <==>
      Publishes(w, op) && op.outcome != Written && ClosedNext(w, op, interval)
  {
    ApplyEffect(w, op);
  }

  /**
    The failing family. The rule is on an event and its grace is zero, its pending episode is due to
    fire, and a true sample comes whose write is refused. The pass then drops the episode.
  */
  lemma PassClosesSeen(w: World, op: Op, end: Op, interval: Time)
    requires op.Sampled? && Holds(op.rule, op.sample) && op.outcome == Refused && EndGrace(op.rule, interval) == 0
    requires KeyOf(op) in w.mem && w.mem[KeyOf(op)].alert.ruleId == op.rule.id && w.mem[KeyOf(op)].seen < op.now
    requires !w.mem[KeyOf(op)].firing && op.now - w.mem[KeyOf(op)].first >= op.rule.holdFor
    requires end.Ended? && end.key == KeyOf(op)
    ensures ClosedNext(Apply(w, op), op, interval) && end.key !in Apply(Apply(w, op), end).mem
  {
    ApplyEffect(w, op);
    ApplyEffect(Apply(w, op), end);
  }

  datatype Answer = Failed | Samples(samples: seq<Sample>)

  /** A rule of the pass, and what each source that serves its kind answered. */
  datatype RuleInput = RuleInput(rule: Rule, answers: seq<Answer>)

  /**
    Whether the table can be read, whether the rules and the silences could be loaded, what the silences
    cover, and which unsampled episodes of a spell rule a source confirms as cleared.
  */
  datatype Environment = Environment(answers: bool, loads: bool, silenced: Alert -> bool,
                                     cleared: (Rule, seq<Alert>) -> Option<seq<Alert>>)

  /** A transition is silenced exactly when a silence covers its alert. */
  predicate SilencedBy(env: Environment, w: World, op: Op)
    requires op.Sampled? || op.Ended?
  {
    Publishes(w, op) ==>
      ResultOf(w.mem, op).alert.Some? && (op.silenced <==> env.silenced(ResultOf(w.mem, op).alert.value))
  }

  /** A clearer answers about the episodes it was given. */
  ghost predicate EnvironmentOk(env: Environment) {
    forall r, episodes :: env.cleared(r, episodes).Some? ==>
      forall a :: a in env.cleared(r, episodes).value ==> a in episodes
  }

  /**
    The run continues `base`, since then all was done at `now`, and no episode was ended that was last
    sampled at `now` or later.
  */
  ghost predicate EndsStale(run: Run, base: Run, now: Time) {
    run == base || (run.Then? && EndsStale(run.prev, base, now) && StaleEnd(After(run.prev), run.op, now))
  }

  predicate StaleEnd(w: World, op: Op, now: Time) {
    (op.Forgot? || op.now == now) && (op.Ended? && op.key in w.mem ==> w.mem[op.key].seen < now)
  }

  lemma {:induction false} EndsStaleFrom(run: Run, mid: Run, base: Run, now: Time)
    requires EndsStale(run, mid, now) && EndsStale(mid, base, now)
    ensures EndsStale(run, base, now)
  {
    if run != mid { EndsStaleFrom(run.prev, mid, base, now); }
  }

  /** The samples that a run evaluated, in order. */
  function Sampling(run: Run): seq<(Rule, Sample)> {
    match run
    case Start => []
    case Then(prev, op) => Sampling(prev) + if op.Sampled? then [(op.rule, op.sample)] else []
  }

  /** A write that ends the episode of k in the pass at `now` failed, so the episode was put back. */
  predicate EndFailed(run: Run, now: Time, k: string) {
    run.Then? &&
    ((run.op.Ended? && run.op.key == k && run.op.now == now && run.op.outcome != Written)
      || EndFailed(run.prev, now, k))
  }

  /** `acc` followed by the samples of one source. */
  function SourceSamples(acc: seq<(Rule, Sample)>, rule: Rule, samples: seq<Sample>): seq<(Rule, Sample)> {
    if samples == [] then acc
    else SourceSamples(acc, rule, samples[..|samples| - 1]) + [(rule, samples[|samples| - 1])]
  }

  /** `acc` followed by the samples of the sources that answered for one rule. */
  function RuleSamples(acc: seq<(Rule, Sample)>, rule: Rule, answers: seq<Answer>): seq<(Rule, Sample)> {
    if answers == [] then acc
    else
      var before := RuleSamples(acc, rule, answers[..|answers| - 1]);
      var last := answers[|answers| - 1];
      if last.Samples? then SourceSamples(before, rule, last.samples) else before
  }

  /** `acc` followed by the samples of a whole pass, in the order of its rules. */
  function PassSamples(acc: seq<(Rule, Sample)>, rules: seq<RuleInput>): seq<(Rule, Sample)> {
    if rules == [] then acc
    else
      var last := rules[|rules| - 1];
      RuleSamples(PassSamples(acc, rules[..|rules| - 1]), last.rule, last.answers)
  }

  /** Every source that serves the rule answered, and there is one. */
  predicate FullyObserved(answers: seq<Answer>) {
    answers != [] && forall i :: 0 <= i < |answers| ==> answers[i].Samples?
  }

  function RuleIds(rules: seq<RuleInput>): set<string> {
    set i | 0 <= i < |rules| :: rules[i].rule.id
  }

  lemma RuleIdsGrow(rules: seq<RuleInput>, i: nat)
    requires i < |rules|
    ensures RuleIds(rules[..i + 1]) == RuleIds(rules[..i]) + {rules[i].rule.id}
  {
    var longer := rules[..i + 1];
    assert forall j :: 0 <= j < i ==> longer[j] == rules[..i][j];
    assert longer[i] == rules[i];
  }

  /** A stale episode of the selected rules is open only where the write that ends it failed. */
  ghost predicate StaleEnded(states: Episodes, selects: string -> bool, cutoff: Time, run: Run, now: Time) {
    forall k :: k in states && Stale(states[k], selects, cutoff) ==> EndFailed(run, now, k)
  }

  /** An episode of the rule that was not sampled within its grace is open only where ending it failed. */
  ghost predicate RuleEnded(states: Episodes, r: Rule, interval: Time, run: Run, now: Time) {
    forall k :: k in states && states[k].alert.ruleId == r.id && now - states[k].seen > EndGrace(r, interval) ==>
      EndFailed(run, now, k)
  }

  /** So it is for every rule whose sources all answered. A spell ends where a source confirms it. */
  ghost predicate RulesEnded(states: Episodes, rules: seq<RuleInput>, interval: Time, run: Run, now: Time) {
    forall i :: 0 <= i < |rules| && FullyObserved(rules[i].answers) && rules[i].rule.eventType !in SPELL_EVENTS ==>
      RuleEnded(states, rules[i].rule, interval, run, now)
  }

  /** An operation leaves as it was every episode that is not sampled at its time. */
  lemma OldIsKept(w: World, op: Op, now: Time, k: string)
    requires StaleEnd(w, op, now) && k in Apply(w, op).mem && Apply(w, op).mem[k].seen < now
    ensures k in w.mem && w.mem[k] == Apply(w, op).mem[k]
  {
    if op.NewTerm? {
      RestoredNow(map[], op.active, now, k);
    } else if !op.Forgot? {
      SteppedNow(w.mem, op, k);
      ApplyEffect(w, op);
      hide ResultOf, Apply;
    }
  }

  /** A step or an end leaves an episode that it does not sample as it was. */
  lemma SteppedNow(mem: Episodes, op: Op, k: string)
    requires op.Sampled? || op.Ended?
    ensures var states := ResultOf(mem, op).states;
      k in states ==> states[k].seen == op.now || (k in mem && mem[k] == states[k])
  {}

  lemma {:induction false} RestoredNow(mem: Episodes, active: seq<Alert>, now: Time, k: string)
    requires k in mem ==> mem[k].seen == now
    ensures k in RestoreAll(mem, active, now) ==> RestoreAll(mem, active, now)[k].seen == now
  {
    if active != [] { RestoredNow(mem, active[..|active| - 1], now, k); }
  }

  /** What a rule has ended stays so for the rest of the pass. */
  lemma {:induction false} RuleStaysEnded(run: Run, mid: Run, r: Rule, interval: Time, now: Time)
    requires EndsStale(run, mid, now) && RuleEnded(After(mid).mem, r, interval, mid, now)
    ensures RuleEnded(After(run).mem, r, interval, run, now)
  {
    if run != mid {
      RuleStaysEnded(run.prev, mid, r, interval, now);
      forall k | k in After(run).mem && now - After(run).mem[k].seen > EndGrace(r, interval)
        ensures k in After(run.prev).mem && After(run.prev).mem[k] == After(run).mem[k]
      {
        OldIsKept(After(run.prev), run.op, now, k);
      }
    }
  }

  lemma RulesStayEnded(run: Run, mid: Run, rules: seq<RuleInput>, interval: Time, now: Time)
    requires EndsStale(run, mid, now) && RulesEnded(After(mid).mem, rules, interval, mid, now)
    ensures RulesEnded(After(run).mem, rules, interval, run, now)
  {
    forall i | 0 <= i < |rules| && FullyObserved(rules[i].answers) && rules[i].rule.eventType !in SPELL_EVENTS
      ensures RuleEnded(After(run).mem, rules[i].rule, interval, run, now)
    {
      RuleStaysEnded(run, mid, rules[i].rule, interval, now);
    }
  }

  /** What is no longer open was a stale episode of the selected rules, and the rest is as it was. */
  ghost predicate ClosedStale(states: Episodes, left: Episodes, selects: string -> bool, cutoff: Time) {
    && (forall k :: k in left ==> k in states && left[k] == states[k])
    && (forall k :: k in states && k !in left ==> Stale(states[k], selects, cutoff))
  }

  /** `stale` are the stale episodes, and `closing` those of them that were to be closed. */
  lemma ClosedAre(states: Episodes, left: Episodes, selects: string -> bool, cutoff: Time, stale: seq<Alert>,
                  closing: seq<Alert>, run: Run, now: Time)
    requires EpisodesOk(states)
    requires forall a :: a in stale <==>
      a.key in states && states[a.key].alert == a && Stale(states[a.key], selects, cutoff)
    requires forall a :: a in closing ==> a in stale
    requires Thinned(states, left, Keys(closing)) && AllEnded(left, Keys(closing), run, now)
    ensures ClosedStale(states, left, selects, cutoff)
    ensures closing == stale ==> StaleEnded(left, selects, cutoff, run, now)
  {
    forall k | k in states && k !in left ensures Stale(states[k], selects, cutoff) {
      var i :| 0 <= i < |closing| && closing[i].key == k;
      assert closing[i] in stale;
    }
    if closing == stale {
      forall k | k in left && Stale(left[k], selects, cutoff) ensures k in Keys(closing) {
        assert left[k].alert in stale;
      }
    }
  }

  /** An episode of no rule in `live` that this pass did not sample is open only where ending it failed. */
  ghost predicate OrphansEnded(states: Episodes, live: set<string>, run: Run, now: Time) {
    StaleEnded(states, id => id !in live, now, run, now)
  }

  /** No pending episode is held that was not sampled within the hour. */
  ghost predicate Forgotten(states: Episodes, now: Time) {
    forall k :: k in states && !states[k].firing ==> now - states[k].seen <= 3600 * SECOND
  }

  /** What is open is as it was, and what is no longer open is one of `keys`. */
  ghost predicate Thinned(states: Episodes, left: Episodes, keys: set<string>) {
    && (forall k :: k in left ==> k in states && left[k] == states[k])
    && (forall k :: k in states && k !in left ==> k in keys)
  }

  /** What is still open of `keys` is open because the write that ends it failed. */
  ghost predicate AllEnded(states: Episodes, keys: set<string>, run: Run, now: Time) {
    forall k :: k in keys && k in states ==> EndFailed(run, now, k)
  }

  function Keys(alerts: seq<Alert>): set<string> {
    set i | 0 <= i < |alerts| :: alerts[i].key
  }

  lemma KeysGrow(alerts: seq<Alert>, i: nat)
    requires i < |alerts|
    ensures Keys(alerts[..i + 1]) == Keys(alerts[..i]) + {alerts[i].key}
  {
    var longer := alerts[..i + 1];
    assert forall j :: 0 <= j < i ==> longer[j] == alerts[..i][j];
    assert longer[i] == alerts[i];
  }

  lemma OneMoreEnded(was: Episodes, before: Episodes, after: Episodes, keys: set<string>, run: Run, op: Op)
    requires op.Ended? && (op.key in after ==> op.outcome != Written)
    requires Thinned(was, before, keys) && Thinned(before, after, {op.key}) && AllEnded(before, keys, run, op.now)
    ensures Thinned(was, after, keys + {op.key}) && AllEnded(after, keys + {op.key}, Then(run, op), op.now)
  {}

  /** The unsampled episodes that are over: of a spell, those a source confirms as cleared. */
  function Closing(rule: Option<Rule>, unsampled: seq<Alert>, env: Environment): seq<Alert> {
    if rule.None? || rule.value.eventType !in SPELL_EVENTS then unsampled
    else
      var cleared := env.cleared(rule.value, unsampled);
      if cleared.None? then [] else cleared.value
  }

  lemma TransitionOk(run: Run, op: Op)
    requires ValidRun(run) && (op.Sampled? || op.Ended?)
    ensures TableOk(After(run).rows)
    ensures var r := ResultOf(After(run).mem, op);
            IsTransition(r.transition) ==> r.alert.Some? && r.alert.value.state != Pending
  {
    RunOk(run);
    ShapeOf(After(run).mem, op);
  }

  /** An end touches no episode but its own, and never rewrites one. */
  lemma EndKeeps(w: World, op: Op)
    requires op.Ended?
    ensures Thinned(w.mem, Apply(w, op).mem, {op.key})
    ensures op.key in Apply(w, op).mem ==> op.outcome != Written
  {
    ApplyEffect(w, op);
  }

  // ---- what the engine made its notifier do ----

  /**
    The calls of the notifier, the last one outermost: the run at the time of the call, and what the
    notifier had done once it returned. A notice is given of the transition that ended the run.
  */
  datatype Journal =
    | Blank
    | Noticed(prev: Journal, run: Run, alert: Alert, trace: Trace)
    | Retried(prev: Journal, run: Run, trace: Trace)

  function TraceOf(j: Journal): Trace {
    if j.Blank? then Begin else j.trace
  }

  function RunOf(j: Journal): Run {
    if j.Blank? then Start else j.run
  }

  predicate Extends(run: Run, base: Run) {
    run == base || (run.Then? && Extends(run.prev, base))
  }

  /** The transition was the last to be acknowledged and notified, and its row shows it. */
  ghost predicate JustStored(w: World, a: Alert) {
    && RowOf(a) in w.rows && w.rows[RowOf(a)].state == a.state
    && |w.log| >= 2 && w.log[|w.log| - 2] == Stored(a) && w.log[|w.log| - 1] == Notified(a)
  }

  /** A notice of the transition that the claim is about was given. */
  predicate NoticeOf(j: Journal, c: ClaimKey) {
    match j
    case Blank => false
    case Noticed(prev, _, a, _) => (Dedup(a) == c.dedup && PhaseOf(a) == c.phase) || NoticeOf(prev, c)
    case Retried(prev, _, _) => NoticeOf(prev, c)
  }

  /** No episode that started later fires in memory, and a FIRING is for the episode that does. */
  predicate Held(mem: Episodes, c: ClaimKey) {
    && (FiringAt(mem, c.dedup.key) ==> Trunc(mem[c.dedup.key].first) <= c.dedup.start)
    && (c.phase == Fire ==> FiringAt(mem, c.dedup.key) && Trunc(mem[c.dedup.key].first) == c.dedup.start)
  }

  /** Since `base`, every claim asked and every message sent was given notice of, and memory still holds it. */
  predicate HeldSince(t: Trace, base: Trace, mem: Episodes, j: Journal) {
    t == base || (t.Next? && HeldSince(t.prev, base, mem, j) && Held(mem, t.event.claim) && NoticeOf(j, t.event.claim))
  }

  ghost predicate JournalOk(j: Journal, channels: seq<string>) {
    match j
    case Blank => true
    case Noticed(prev, run, a, trace) =>
      && JournalOk(prev, channels) && Extends(run, RunOf(prev)) && JustStored(After(run), a)
      && Within(trace, TraceOf(prev), NoticeClaims(a, channels))
    case Retried(prev, run, trace) =>
      JournalOk(prev, channels) && Extends(run, RunOf(prev)) && HeldSince(trace, TraceOf(prev), After(run).mem, prev)
  }

  /** The transition that the claim is about was acknowledged and notified. */
  predicate OnLog(log: seq<AlertRuns.Event>, c: ClaimKey) {
    exists i :: 0 <= i < |log| && log[i].Notified? && Dedup(log[i].alert) == c.dedup
                && (c.phase == Resolve <==> log[i].alert.state == Resolved)
  }

  predicate OnLogSince(t: Trace, base: Trace, log: seq<AlertRuns.Event>) {
    t == base || (t.Next? && OnLogSince(t.prev, base, log) && OnLog(log, t.event.claim))
  }

  /** Whenever the notifier was called, what it then claimed or sent was on the log of that time. */
  ghost predicate SentOnRecord(j: Journal) {
    !j.Blank? ==> SentOnRecord(j.prev) && OnLogSince(j.trace, TraceOf(j.prev), After(j.run).log)
  }

  lemma {:induction false} LogGrows(run: Run, base: Run)
    requires Extends(run, base)
    ensures After(base).log <= After(run).log
  {
    if run != base {
      LogGrows(run.prev, base);
      var w, op := After(run.prev), run.op;
      if op.Sampled? || op.Ended? {
        ApplyEffect(w, op);
      }
    }
  }

  lemma {:induction false} NoticeIsOnLog(j: Journal, channels: seq<string>, run: Run, c: ClaimKey)
    requires JournalOk(j, channels) && Extends(run, RunOf(j)) && NoticeOf(j, c)
    ensures OnLog(After(run).log, c)
  {
    if j.Noticed? && Dedup(j.alert) == c.dedup && PhaseOf(j.alert) == c.phase {
      LogGrows(run, j.run);
      assert After(run).log[|After(j.run).log| - 1] == Notified(j.alert);
    } else {
      ExtendsFurther(run, RunOf(j), RunOf(j.prev));
      NoticeIsOnLog(j.prev, channels, run, c);
    }
  }

  lemma {:induction false} ExtendsFurther(run: Run, mid: Run, base: Run)
    requires Extends(run, mid) && Extends(mid, base)
    ensures Extends(run, base)
  {
    if run != mid { ExtendsFurther(run.prev, mid, base); }
  }

  lemma {:induction false} HeldIsOnLog(t: Trace, base: Trace, mem: Episodes, j: Journal, channels: seq<string>,
                                       run: Run)
    requires JournalOk(j, channels) && Extends(run, RunOf(j)) && HeldSince(t, base, mem, j)
    ensures OnLogSince(t, base, After(run).log)
  {
    if t != base {
      HeldIsOnLog(t.prev, base, mem, j, channels, run);
      NoticeIsOnLog(j, channels, run, t.event.claim);
    }
  }

  lemma {:induction false} NoticedIsOnLog(t: Trace, base: Trace, a: Alert, channels: seq<string>,
                                          log: seq<AlertRuns.Event>)
    requires Within(t, base, NoticeClaims(a, channels)) && Notified(a) in log
    ensures OnLogSince(t, base, log)
  {
    if t != base {
      NoticedIsOnLog(t.prev, base, a, channels, log);
    }
  }

  /**
    Every claim that is asked and every message that is sent, at once or on a later pass, follows the
    acknowledged write of its transition.
  */
  lemma {:induction false} SendsFollowStore(j: Journal, channels: seq<string>)
    requires JournalOk(j, channels)
    ensures SentOnRecord(j)
  {
    if !j.Blank? {
      SendsFollowStore(j.prev, channels);
      if j.Noticed? {
        assert Notified(j.alert) in After(j.run).log;
        NoticedIsOnLog(j.trace, TraceOf(j.prev), j.alert, channels, After(j.run).log);
      } else {
        HeldIsOnLog(j.trace, TraceOf(j.prev), After(j.run).mem, j.prev, channels, j.run);
      }
    }
  }

  /** Since `base`, every FIRING is for a row that is firing. */
  predicate FiresRows(t: Trace, base: Trace, rows: Table) {
    t == base ||
    (&& t.Next? && FiresRows(t.prev, base, rows)
     && var c := t.event.claim;
        var rk := RowKey(c.dedup.key, c.dedup.start);
        c.phase == Fire ==> rk in rows && rows[rk].state == Firing)
  }

  lemma {:induction false} HeldFiresRows(t: Trace, base: Trace, w: World, j: Journal)
    requires HeldSince(t, base, w.mem, j) && Synced(w)
    ensures FiresRows(t, base, w.rows)
  {
    if t != base { HeldFiresRows(t.prev, base, w, j); }
  }

  /** In a run that loses no reply, a FIRING that is made again is for an alert that the table shows firing. */
  lemma LosslessRetriesFireRows(j: Journal, channels: seq<string>)
    requires j.Retried? && JournalOk(j, channels) && ValidRun(j.run) && Lossless(j.run)
    ensures FiresRows(j.trace, TraceOf(j.prev), After(j.run).rows)
  {
    SyncedExactly(j.run);
    HeldFiresRows(j.trace, TraceOf(j.prev), After(j.run), j.prev);
  }

  /** Everything that is queued was given notice of. */
  ghost predicate QueueNoticed(queue: seq<Delivery>, j: Journal) {
    forall d :: d in queue ==> NoticeOf(j, ClaimOf(d))
  }

  /** A notice adds deliveries of its own transition to the queue. */
  ghost predicate QueuedFor(queue: seq<Delivery>, before: seq<Delivery>, a: Alert) {
    forall d :: d in queue ==> d in before || (d.alert == a && d.phase == PhaseOf(a))
  }

  lemma AddedQueued(queue: seq<Delivery>, before: seq<Delivery>, a: Alert, pass: nat)
    requires AddedFor(queue, Filter(before, OtherThan(a.key)), a, pass)
    ensures QueuedFor(queue, before, a)
  {
    var kept := Filter(before, OtherThan(a.key));
    FilterMembers(before, OtherThan(a.key));
    forall d | d in queue ensures d in before || (d.alert == a && d.phase == PhaseOf(a)) {
      var i :| 0 <= i < |queue| && queue[i] == d;
      if i < |kept| { assert kept[i] == d && kept[i] in kept; }
    }
  }

  lemma {:induction false} OwedIsHeld(t: Trace, base: Trace, queue: seq<Delivery>, firing: seq<Alert>, mem: Episodes,
                                      j: Journal)
    requires Within(t, base, OwedOf(queue, firing)) && QueueNoticed(queue, j) && EpisodesOk(mem)
    requires forall a :: a in firing <==> a.key in mem && mem[a.key].firing && mem[a.key].alert == a
    ensures HeldSince(t, base, mem, j)
  {
    if t != base {
      OwedIsHeld(t.prev, base, queue, firing, mem, j);
      var d :| d in queue && !Obsolete(d, firing) && ClaimOf(d) == t.event.claim;
      var k := d.alert.key;
      if FiringAt(mem, k) { assert mem[k].alert in firing && mem[k].alert.key == k; }
    }
  }

  lemma OwedNoticed(queue: seq<Delivery>, before: seq<Delivery>, firing: seq<Alert>, j: Journal)
    requires QueueNoticed(before, j) && forall d :: d in queue ==> ClaimOf(d) in OwedOf(before, firing)
    ensures QueueNoticed(queue, j)
  {
    forall d | d in queue ensures NoticeOf(j, ClaimOf(d)) {
      var o :| o in before && !Obsolete(o, firing) && ClaimOf(o) == ClaimOf(d);
    }
  }

  /** The delivery is still owed: no later episode of its alert fires, and if it is a FIRING its own does. */
  predicate Owed(mem: Episodes, d: Delivery) {
    Held(mem, ClaimKey(Dedup(d.alert), d.channel, d.phase))
  }

  lemma OwedNotObsolete(queue: seq<Delivery>, firing: seq<Alert>, mem: Episodes)
    requires EpisodesOk(mem)
    requires forall a :: a in firing <==> a.key in mem && mem[a.key].firing && mem[a.key].alert == a
    ensures forall d :: d in queue && Owed(mem, d) ==> !Obsolete(d, firing)
  {
    forall d | d in queue && Owed(mem, d) ensures !Obsolete(d, firing) {
      if d.phase == Fire {
        assert mem[d.alert.key].alert in firing && Dedup(mem[d.alert.key].alert) == Dedup(d.alert);
      }
    }
  }

  // ---- the alerts table ----

  predicate LatestFirst(active: seq<Alert>) {
    forall i, j :: 0 <= i < j < |active| ==> active[i].lastEvalAt >= active[j].lastEvalAt
  }

  function InsertRow(a: Alert, active: seq<Alert>): (r: seq<Alert>)
    requires LatestFirst(active)
    ensures LatestFirst(r) && forall b :: b in r <==> b in active || b == a
  {
    if active == [] || active[0].lastEvalAt <= a.lastEvalAt then [a] + active
    else
      var rest := InsertRow(a, active[1..]);
      assert forall b :: b in active[1..] ==> b.lastEvalAt <= active[0].lastEvalAt;
      assert forall j :: 0 <= j < |rest| ==> rest[j] in rest;
      [active[0]] + rest
  }

  /** The alerts table, shared by every engine, and the log of the transitions in it. `hist` is the run so far. */
  class Shared {
    var rows: Table
    var log: seq<AlertRuns.Event>
    ghost var hist: Run

    ghost predicate Consistent()
      reads this
    {
      ValidRun(hist) && rows == After(hist).rows && log == After(hist).log
    }

    constructor ()
      ensures rows == map[] && log == [] && hist == Start && Consistent()
    {
      rows, log, hist := map[], [], Start;
    }

    method Write(a: Alert) returns (outcome: Outcome)
      modifies this`rows
      ensures rows == if outcome == Refused then old(rows) else Upsert(old(rows), a)
    {
      if * {
        rows := Upsert(rows, a);
        outcome := Written;
      } else if * {
        rows := Upsert(rows, a);
        outcome := LostReply;
      } else {
        outcome := Refused;
      }
    }

    /** The rows that are not resolved, the last evaluated first, or no answer. */
    method Active(answers: bool) returns (active: Option<seq<Alert>>)
      ensures active.Some? <==> answers
      ensures active.Some? ==> ActiveRows(rows, active.value)
    {
      if !answers {
        return None;
      }
      var out: seq<Alert> := [];
      var todo := rows.Keys;
      while todo != {}
        invariant todo <= rows.Keys && LatestFirst(out)
        invariant forall a :: a in out <==> exists rk ::
          rk in rows && rk !in todo && rows[rk] == a && a.state != Resolved
      {
        var rk :| rk in todo;
        todo := todo - {rk};
        if rows[rk].state != Resolved {
          out := InsertRow(rows[rk], out);
        }
      }
      active := Some(out);
    }
  }

  class Engine {
    const eval: Evaluator
    const shared: Shared
    const notifier: ChannelNotifier
    const interval: Time
    var stateLoaded: bool
    ghost var journal: Journal

    /** The memory of a loaded term is the memory of the run. */
    ghost predicate Leading()
      reads this, eval, shared
    {
      shared.Consistent() && eval.states == After(shared.hist).mem
    }

    /** The journal accounts for what the notifier did and for what it has queued. */
    ghost predicate Noted()
      reads this, notifier, shared
    {
      && notifier.Valid({}) && notifier.rest == []
      && JournalOk(journal, notifier.channels) && Extends(shared.hist, RunOf(journal))
      && TraceOf(journal) == notifier.book.trace && QueueNoticed(notifier.pending, journal)
    }

    ghost predicate Ready()
      reads this, eval, shared
    {
      shared.Consistent() && (if stateLoaded then Leading() else eval.states == map[])
    }

    /** What every step of a pass that started from `base` keeps. */
    ghost predicate Running(base: Run, now: Time)
      reads this, eval, shared, notifier
    {
      Leading() && Noted() && EndsStale(shared.hist, base, now)
    }

    constructor (shared: Shared, notifier: ChannelNotifier, interval: Time)
      requires notifier.Valid({}) && notifier.rest == [] && notifier.pending == [] && notifier.book.trace == Begin
      ensures this.shared == shared && this.notifier == notifier && this.interval == interval && fresh(eval)
      ensures !stateLoaded && eval.states == map[] && journal == Blank
    {
      this.shared := shared;
      this.notifier := notifier;
      this.interval := interval;
      eval := new Evaluator();
      stateLoaded := false;
      journal := Blank;
    }

    /**
      Persists one transition, and undoes it when the write fails. A transition that is on record is
      notified unless a silence covers it; `told` is what the notifier was given.
    */
    method Publish(a: Alert, prev: Option<Episode>, key: string, silenced: bool, cycle: Cycle)
      returns (outcome: Outcome, told: Option<Alert>)
      requires TableOk(shared.rows) && a.state != Pending && notifier.Valid({}) && notifier.rest == []
      modifies eval, shared`rows, shared`log, notifier, cycle
      ensures shared.rows == if outcome == Refused then old(shared.rows)
        else Upsert(old(shared.rows), a.(suppressed := silenced))
      ensures eval.states == if outcome == Written then old(eval.states) else UndoEpisode(old(eval.states), key, prev)
      ensures shared.log == old(shared.log) + if outcome == Written then Events(a.(suppressed := silenced)) else []
      ensures told == if outcome == Written && !silenced then Some(a.(suppressed := false)) else None
      ensures notifier.Valid({}) && notifier.rest == []
      ensures told.None? ==> unchanged(notifier)
      ensures old(cycle.ended) ==> cycle.ended
      ensures told.Some? ==>
        && JustStored(World(eval.states, shared.rows, shared.log), told.value)
        && Within(notifier.book.trace, old(notifier.book.trace), NoticeClaims(told.value, notifier.channels))
        && QueuedFor(notifier.pending, old(notifier.pending), told.value)
        && NoticeMade(notifier.book, |old(notifier.book.entries)|, told.value, notifier.channels)
        && AllAsked(notifier.book, old(notifier.book.trace), |old(notifier.book.entries)|, cycle.ended)
    {
      hide Inv;
      var sent := a.(suppressed := silenced);
      outcome := shared.Write(sent);
      cycle.Pass();
      UpsertRow(old(shared.rows), sent);
      if outcome != Written {
        eval.Undo(key, prev);
        return outcome, None;
      }
      shared.log := shared.log + [Stored(sent)];
      if sent.suppressed {
        return outcome, None;
      }
      shared.log := shared.log + [Notified(sent)];
      ghost var queue := notifier.pending;
      notifier.Notify(sent, cycle);
      AddedQueued(notifier.pending, queue, sent, notifier.passes);
      return outcome, Some(sent);
    }

    /** Extends the run by the operation that was just carried out. */
    ghost method Record(op: Op)
      requires ValidRun(shared.hist) && Valid(After(shared.hist), op)
      requires World(eval.states, shared.rows, shared.log) == Apply(After(shared.hist), op)
      modifies shared`hist
      ensures shared.hist == Then(old(shared.hist), op) && Leading()
    {
      shared.hist := Then(shared.hist, op);
    }

    /** Records an operation and the notice that was given of it. */
    ghost method RecordNotice(op: Op, told: Option<Alert>, queue: seq<Delivery>)
      requires ValidRun(shared.hist) && Valid(After(shared.hist), op)
      requires World(eval.states, shared.rows, shared.log) == Apply(After(shared.hist), op)
      requires notifier.Valid({}) && notifier.rest == [] && QueueNoticed(queue, journal)
      requires JournalOk(journal, notifier.channels) && Extends(shared.hist, RunOf(journal))
      requires told.None? ==> TraceOf(journal) == notifier.book.trace && notifier.pending == queue
      requires told.Some? ==>
        && JustStored(World(eval.states, shared.rows, shared.log), told.value)
        && Within(notifier.book.trace, TraceOf(journal), NoticeClaims(told.value, notifier.channels))
        && QueuedFor(notifier.pending, queue, told.value)
      modifies shared`hist, this`journal
      ensures shared.hist == Then(old(shared.hist), op) && Leading() && Noted()
    {
      hide Inv;
      Record(op);
      if told.Some? {
        journal := Noticed(journal, shared.hist, told.value, notifier.book.trace);
      }
    }

    /** Steps the evaluator through one sample, and says whether that had a transition to publish. */
    method Evaluate(rule: Rule, sample: Sample, now: Time, env: Environment, cycle: Cycle, ghost base: Run)
      returns (published: bool, ghost op: Op)
      requires Running(base, now)
      modifies eval, shared, notifier, cycle, this`journal
      ensures old(cycle.ended) ==> cycle.ended
      ensures Running(base, now)
      ensures shared.hist == Then(old(shared.hist), op) && SampleOf(op, Key(rule, sample))
      ensures op.rule == rule && op.sample == sample && op.now == now
      ensures published <==> Publishes(After(old(shared.hist)), op)
      ensures SilencedBy(env, After(old(shared.hist)), op)
    {
      hide Inv, JournalOk, QueueNoticed, NoticeMade, AllAsked;
      ghost var w := After(shared.hist);
      var key := Key(rule, sample);
      ghost var queue := notifier.pending;
      TransitionOk(shared.hist, Sampled(rule, sample, now, false, Written));
      var prev := eval.Checkpoint(key);
      var a, t := eval.Step(rule, sample, now);
      published := false;
      var silenced, outcome, told := false, Written, None;
      if a.Some? && t == NoChange && a.value.state == Firing {
        outcome := shared.Write(a.value);
      } else if !(a.None? || t == NoChange || t == Opened || t == Cancelled) {
        silenced := env.silenced(a.value);
        outcome, told := Publish(a.value, prev, key, silenced, cycle);
        published := true;
      }
      op := Sampled(rule, sample, now, silenced, outcome);
      assert World(eval.states, shared.rows, shared.log) == Apply(w, op);
      RecordNotice(op, told, queue);
    }

    method EndOne(key: string, now: Time, env: Environment, cycle: Cycle, ghost base: Run) returns (ghost op: Op)
      requires Running(base, now)
      requires key in eval.states ==> eval.states[key].seen < now
      modifies eval, shared, notifier, cycle, this`journal
      ensures old(cycle.ended) ==> cycle.ended
      ensures Running(base, now)
      ensures Thinned(old(eval.states), eval.states, {key})
      ensures shared.hist == Then(old(shared.hist), op) && op.Ended? && op.key == key && op.now == now
      ensures key in eval.states ==> op.outcome != Written
      ensures SilencedBy(env, After(old(shared.hist)), op)
    {
      hide Inv, JournalOk, QueueNoticed, NoticeMade, AllAsked;
      ghost var w := After(shared.hist);
      ghost var queue := notifier.pending;
      TransitionOk(shared.hist, Ended(key, now, false, Written));
      var prev := eval.Checkpoint(key);
      var resolved, t := eval.End(key, now);
      var silenced, outcome, told := false, Written, None;
      if t == Cleared && resolved.Some? {
        silenced := env.silenced(resolved.value);
        outcome, told := Publish(resolved.value, prev, key, silenced, cycle);
      }
      op := Ended(key, now, silenced, outcome);
      assert World(eval.states, shared.rows, shared.log) == Apply(w, op);
      RecordNotice(op, told, queue);
      EndKeeps(w, op);
    }

    /** Closes the unsampled episodes; those of a spell only where a source confirms it. */
    method EndUnsampled(rule: Option<Rule>, unsampled: seq<Alert>, now: Time, env: Environment, cycle: Cycle,
                        ghost base: Run)
      requires Running(base, now) && EnvironmentOk(env)
      requires forall a :: a in unsampled ==> a.key in eval.states ==> eval.states[a.key].seen < now
      modifies eval, shared, notifier, cycle, this`journal
      ensures old(cycle.ended) ==> cycle.ended
      ensures Running(base, now)
      ensures Sampling(shared.hist) == Sampling(old(shared.hist))
      ensures Thinned(old(eval.states), eval.states, Keys(Closing(rule, unsampled, env)))
      ensures AllEnded(eval.states, Keys(Closing(rule, unsampled, env)), shared.hist, now)
    {
      var closing := unsampled;
      if rule.Some? && rule.value.eventType in SPELL_EVENTS {
        var cleared := env.cleared(rule.value, unsampled);
        if cleared.None? {
          return;
        }
        closing := cleared.value;
      }
      assert forall a :: a in closing ==> a in unsampled;
      EndAll(closing, now, env, cycle, base);
    }

    method EndAll(closing: seq<Alert>, now: Time, env: Environment, cycle: Cycle, ghost base: Run)
      requires Running(base, now)
      requires forall a :: a in closing ==> a.key in eval.states ==> eval.states[a.key].seen < now
      modifies eval, shared, notifier, cycle, this`journal
      ensures old(cycle.ended) ==> cycle.ended
      ensures Running(base, now)
      ensures Sampling(shared.hist) == Sampling(old(shared.hist))
      ensures Thinned(old(eval.states), eval.states, Keys(closing))
      ensures AllEnded(eval.states, Keys(closing), shared.hist, now)
    {
      for i := 0 to |closing|
        invariant Running(base, now) && (old(cycle.ended) ==> cycle.ended)
        invariant Sampling(shared.hist) == Sampling(old(shared.hist))
        invariant Thinned(old(eval.states), eval.states, Keys(closing[..i]))
        invariant AllEnded(eval.states, Keys(closing[..i]), shared.hist, now)
      {
        assert closing[i] in closing;
        KeysGrow(closing, i);
        ghost var before, run := eval.states, shared.hist;
        ghost var op := EndOne(closing[i].key, now, env, cycle, base);
        OneMoreEnded(old(eval.states), before, eval.states, Keys(closing[..i]), run, op);
      }
      assert closing[..|closing|] == closing;
    }

    method RestoreRows(active: seq<Alert>, now: Time)
      requires eval.states == map[]
      modifies eval
      ensures eval.states == RestoreAll(map[], active, now)
    {
      for i := 0 to |active|
        invariant eval.states == RestoreAll(map[], active[..i], now)
      {
        assert active[..i + 1][..i] == active[..i];
        eval.Restore(active[i], now);
      }
      assert active[..|active|] == active;
    }

    method BeginPass(newTerm: bool, now: Time, answers: bool)
      requires shared.Consistent() && Noted() && (newTerm || Ready())
      modifies this`stateLoaded, eval, shared
      ensures Ready() && Noted() && EndsStale(shared.hist, old(shared.hist), now)
      ensures shared.rows == old(shared.rows) && shared.log == old(shared.log)
      ensures Sampling(shared.hist) == Sampling(old(shared.hist)) && (answers ==> stateLoaded)
    {
      if newTerm {
        eval.Reset();
        stateLoaded := false;
      }
      if !stateLoaded {
        Reload(now, answers);
      }
    }

    /** Reloads a new term from the table, unless the table does not answer. */
    method Reload(now: Time, answers: bool)
      requires shared.Consistent() && Noted() && eval.states == map[] && !stateLoaded
      modifies this`stateLoaded, eval, shared
      ensures Ready() && Noted() && shared.rows == old(shared.rows) && shared.log == old(shared.log)
      ensures EndsStale(shared.hist, old(shared.hist), now)
      ensures Sampling(shared.hist) == Sampling(old(shared.hist)) && (stateLoaded <==> answers)
    {
      var active := shared.Active(answers);
      if active.Some? {
        RestoreRows(active.value, now);
        Record(NewTerm(active.value, now));
        assert EndsStale(old(shared.hist), old(shared.hist), now);
        stateLoaded := true;
      }
    }

    /** Steps the evaluator through the samples of one source. */
    method EvaluateAll(rule: Rule, samples: seq<Sample>, now: Time, env: Environment, cycle: Cycle,
                       ghost base: Run) returns (cancelled: bool)
      requires Running(base, now)
      modifies eval, shared, notifier, cycle, this`journal
      ensures old(cycle.ended) ==> cycle.ended
      ensures Running(base, now)
      ensures cancelled ==> cycle.ended
      ensures !cancelled ==> Sampling(shared.hist) == SourceSamples(Sampling(old(shared.hist)), rule, samples)
    {
      ghost var acc := Sampling(shared.hist);
      for i := 0 to |samples|
        invariant Running(base, now) && (old(cycle.ended) ==> cycle.ended)
        invariant Sampling(shared.hist) == SourceSamples(acc, rule, samples[..i])
      {
        assert samples[..i + 1][..i] == samples[..i];
        var published, _ := Evaluate(rule, samples[i], now, env, cycle, base);
        if published && cycle.ended {
          return true;
        }
      }
      assert samples[..|samples|] == samples;
      return false;
    }

    /** Closes what a fully observed rule did not sample within its grace. */
    method EndRule(rule: Rule, now: Time, env: Environment, cycle: Cycle, ghost base: Run)
      requires Running(base, now) && EnvironmentOk(env)
      modifies eval, shared, notifier, cycle, this`journal
      ensures old(cycle.ended) ==> cycle.ended
      ensures Running(base, now)
      ensures Sampling(shared.hist) == Sampling(old(shared.hist))
      ensures ClosedStale(old(eval.states), eval.states, id => id == rule.id, now - EndGrace(rule, interval))
      ensures rule.eventType !in SPELL_EVENTS ==> RuleEnded(eval.states, rule, interval, shared.hist, now)
    {
      RunOk(shared.hist);
      ghost var was := eval.states;
      var unsampled := eval.Unsampled(id => id == rule.id, now - EndGrace(rule, interval));
      EndUnsampled(Some(rule), unsampled, now, env, cycle, base);
      ClosedAre(was, eval.states, id => id == rule.id, now - EndGrace(rule, interval), unsampled,
                Closing(Some(rule), unsampled, env), shared.hist, now);
    }

    /** Evaluates what the sources answered for one rule. */
    method EvaluateAnswers(rule: Rule, answers: seq<Answer>, now: Time, env: Environment, cycle: Cycle, ghost base: Run)
      returns (cancelled: bool, complete: bool)
      requires Running(base, now)
      modifies eval, shared, notifier, cycle, this`journal
      ensures old(cycle.ended) ==> cycle.ended
      ensures Running(base, now)
      ensures !cancelled ==> Sampling(shared.hist) == RuleSamples(Sampling(old(shared.hist)), rule, answers)
      ensures !cancelled ==> (complete <==> FullyObserved(answers))
      ensures cancelled ==> cycle.ended
    {
      hide Inv, JournalOk, QueueNoticed, SourceSamples;
      ghost var acc := Sampling(shared.hist);
      var observed, failed := 0, false;
      for j := 0 to |answers|
        invariant Running(base, now) && (old(cycle.ended) ==> cycle.ended)
        invariant Sampling(shared.hist) == RuleSamples(acc, rule, answers[..j])
        invariant failed <==> exists i :: 0 <= i < j && answers[i].Failed?
        invariant 0 <= observed <= j && (!failed ==> observed == j)
      {
        assert answers[..j + 1][..j] == answers[..j];
        if answers[j].Failed? {
          failed := true;
          cycle.Pass();
          if cycle.ended {
            return true, false;
          }
        } else {
          observed := observed + 1;
          cancelled := EvaluateAll(rule, answers[j].samples, now, env, cycle, base);
          if cancelled {
            return true, false;
          }
        }
      }
      assert answers[..|answers|] == answers;
      return false, observed > 0 && !failed;
    }

    /** One rule of the pass. A cancelled pass stops early. */
    method EvaluateRule(input: RuleInput, now: Time, env: Environment, cycle: Cycle, ghost base: Run)
      returns (cancelled: bool)
      requires Running(base, now) && EnvironmentOk(env)
      modifies eval, shared, notifier, cycle, this`journal
      ensures old(cycle.ended) ==> cycle.ended
      ensures Running(base, now)
      ensures !cancelled ==> Sampling(shared.hist) == RuleSamples(Sampling(old(shared.hist)), input.rule, input.answers)
      ensures cancelled ==> cycle.ended
      ensures !cancelled && FullyObserved(input.answers) && input.rule.eventType !in SPELL_EVENTS ==>
        RuleEnded(eval.states, input.rule, interval, shared.hist, now)
    {
      var complete;
      cancelled, complete := EvaluateAnswers(input.rule, input.answers, now, env, cycle, base);
      if !cancelled && complete {
        EndRule(input.rule, now, env, cycle, base);
      }
    }

    /** The next rule of the pass. What the rules before it ended stays so. */
    method NextRule(rules: seq<RuleInput>, i: nat, now: Time, env: Environment, cycle: Cycle, ghost base: Run)
      returns (cancelled: bool)
      requires Running(base, now) && EnvironmentOk(env) && i < |rules|
      requires RulesEnded(eval.states, rules[..i], interval, shared.hist, now)
      modifies eval, shared, notifier, cycle, this`journal
      ensures old(cycle.ended) ==> cycle.ended
      ensures Running(base, now) && (cancelled ==> cycle.ended)
      ensures !cancelled ==>
        Sampling(shared.hist) == RuleSamples(Sampling(old(shared.hist)), rules[i].rule, rules[i].answers)
      ensures !cancelled ==> RulesEnded(eval.states, rules[..i + 1], interval, shared.hist, now)
    {
      hide Inv, JournalOk, QueueNoticed, RuleEnded, RuleSamples;
      ghost var mid := shared.hist;
      cancelled := EvaluateRule(rules[i], now, env, cycle, mid);
      EndsStaleFrom(shared.hist, mid, base, now);
      RulesStayEnded(shared.hist, mid, rules[..i], interval, now);
      assert rules[..i + 1] == rules[..i] + [rules[i]];
    }

    /** The rules of the pass, and the set of their ids. */
    method EvaluateRules(rules: seq<RuleInput>, now: Time, env: Environment, cycle: Cycle, ghost base: Run)
      returns (cancelled: bool, live: set<string>)
      requires Running(base, now) && EnvironmentOk(env)
      modifies eval, shared, notifier, cycle, this`journal
      ensures old(cycle.ended) ==> cycle.ended
      ensures Running(base, now)
      ensures !cancelled ==> Sampling(shared.hist) == PassSamples(Sampling(old(shared.hist)), rules)
      ensures !cancelled ==> live == RuleIds(rules) && RulesEnded(eval.states, rules, interval, shared.hist, now)
      ensures cancelled ==> cycle.ended
    {
      hide Inv, JournalOk, QueueNoticed, RuleEnded, RuleSamples;
      ghost var acc := Sampling(shared.hist);
      live := {};
      for i := 0 to |rules|
        invariant Running(base, now) && (old(cycle.ended) ==> cycle.ended)
        invariant Sampling(shared.hist) == PassSamples(acc, rules[..i])
        invariant live == RuleIds(rules[..i]) && RulesEnded(eval.states, rules[..i], interval, shared.hist, now)
      {
        assert rules[..i + 1][..i] == rules[..i];
        live := live + {rules[i].rule.id};
        RuleIdsGrow(rules, i);
        cancelled := NextRule(rules, i, now, env, cycle, base);
        if cancelled {
          return;
        }
      }
      assert rules[..|rules|] == rules;
      return false, live;
    }

    /** Closes the episodes of rules that are no longer configured. */
    method EndGone(live: set<string>, now: Time, env: Environment, cycle: Cycle, ghost base: Run)
      requires Running(base, now) && EnvironmentOk(env)
      modifies eval, shared, notifier, cycle, this`journal
      ensures old(cycle.ended) ==> cycle.ended
      ensures Running(base, now)
      ensures Sampling(shared.hist) == Sampling(old(shared.hist))
      ensures OrphansEnded(eval.states, live, shared.hist, now)
      ensures ClosedStale(old(eval.states), eval.states, id => id !in live, now)
    {
      RunOk(shared.hist);
      ghost var was := eval.states;
      var gone := eval.Unsampled(id => id !in live, now);
      EndUnsampled(None, gone, now, env, cycle, base);
      ClosedAre(was, eval.states, id => id !in live, now, gone, gone, shared.hist, now);
    }

    method ForgetOld(live: set<string>, now: Time, ghost base: Run)
      requires Running(base, now) && OrphansEnded(eval.states, live, shared.hist, now)
      modifies eval, shared
      ensures Running(base, now)
      ensures Sampling(shared.hist) == Sampling(old(shared.hist))
      ensures eval.states == ForgetEpisodes(old(eval.states), now - FORGET_AFTER)
      ensures Forgotten(eval.states, now)
      ensures OrphansEnded(eval.states, live, shared.hist, now)
    {
      var _ := eval.Forget(now - FORGET_AFTER);
      Record(Forgot(now - FORGET_AFTER));
    }

    /** Drops the queued deliveries that are no longer owed, and makes the others again. */
    method FinishPass(cycle: Cycle, ghost base: Run, now: Time)
      requires Running(base, now)
      modifies notifier, cycle, this`journal
      ensures Running(base, now) && journal == Retried(old(journal), shared.hist, notifier.book.trace)
      ensures forall id :: Sends(notifier.book.trace, old(notifier.book.trace), id) <= 1
      ensures !cycle.ended ==>
        forall d :: d in old(notifier.pending) && d.failedIn < old(notifier.passes) && Owed(eval.states, d) ==>
          Asked(notifier.book.trace, old(notifier.book.trace), d.id)
    {
      hide Inv;
      RunOk(shared.hist);
      ghost var queue, before := notifier.pending, notifier.book.trace;
      var firing := eval.FiringEpisodes();
      notifier.SettleAndRetry(firing, cycle);
      OwedNotObsolete(queue, firing, eval.states);
      OwedIsHeld(notifier.book.trace, before, queue, firing, eval.states, journal);
      OwedNoticed(notifier.pending, queue, firing, journal);
      journal := Retried(journal, shared.hist, notifier.book.trace);
    }

    /**
      A pass after the leader check; `newTerm` is true when the check took the lock. Whatever the
      store, the sources and the channels answer, the pass extends the run it started from and leaves
      the memory of that run, it ends no episode that was last sampled in it, and its journal accounts
      for every claim and send of its notifier. A pass that completes evaluated every sample it was
      given, in order, and left open an episode of a rule that is gone only where the write that ends
      it failed. Last it made again the deliveries that failed before, a FIRING only for an episode
      that fires in the memory it leaves.
    */
    method Tick(rules: seq<RuleInput>, newTerm: bool, now: Time, env: Environment, cycle: Cycle) returns (done: bool)
      requires shared.Consistent() && EnvironmentOk(env) && Noted()
      requires newTerm || Ready()
      modifies this, eval, shared, notifier, cycle
      ensures Ready() && Noted()
      ensures !done ==> !env.answers || !env.loads || cycle.ended
      ensures EndsStale(shared.hist, old(shared.hist), now)
      ensures done ==> stateLoaded && Sampling(shared.hist) == PassSamples(Sampling(old(shared.hist)), rules)
      ensures done ==> OrphansEnded(eval.states, RuleIds(rules), shared.hist, now) && Forgotten(eval.states, now)
      ensures done ==> RulesEnded(eval.states, rules, interval, shared.hist, now)
      ensures done ==> journal.Retried? && journal.run == shared.hist
      ensures done ==> HeldSince(notifier.book.trace, TraceOf(journal.prev), eval.states, journal.prev)
    {
      hide Inv, JournalOk, HeldSince, StaleEnded;
      ghost var base := shared.hist;
      BeginPass(newTerm, now, env.answers);
      if !stateLoaded || !env.loads {
        return false;
      }
      done := RunPass(rules, now, env, cycle, base);
    }

    /** The pass of an engine that has its state, its rules and its silences. */
    method RunPass(rules: seq<RuleInput>, now: Time, env: Environment, cycle: Cycle, ghost base: Run)
      returns (done: bool)
      requires Running(base, now) && EnvironmentOk(env)
      modifies eval, shared, notifier, cycle, this`journal
      ensures Running(base, now) && (!done ==> cycle.ended)
      ensures done ==> Sampling(shared.hist) == PassSamples(Sampling(old(shared.hist)), rules)
      ensures done ==> OrphansEnded(eval.states, RuleIds(rules), shared.hist, now) && Forgotten(eval.states, now)
      ensures done ==> RulesEnded(eval.states, rules, interval, shared.hist, now)
      ensures done ==> journal.Retried? && journal.run == shared.hist
      ensures done ==> HeldSince(notifier.book.trace, TraceOf(journal.prev), eval.states, journal.prev)
    {
      hide Inv;
      var cancelled, live := EvaluateRules(rules, now, env, cycle, base);
      if cancelled {
        return false;
      }
      ghost var mid := shared.hist;
      EndGone(live, now, env, cycle, mid);
      ForgetOld(live, now, mid);
      EndsStaleFrom(shared.hist, mid, base, now);
      RulesStayEnded(shared.hist, mid, rules, interval, now);
      FinishPass(cycle, base, now);
      return true;
    }
  }
}
