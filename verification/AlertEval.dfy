/** The in-memory episode state machine: pending, firing, closed. */
module AlertEval {
  import opened Basics
  import opened Sorting

  /** Nanoseconds since the zero time. */
  type Time = int

  datatype Comparator = GT | GE | LT | LE | EQ | NE | Unknown

  function Compare(v: real, c: Comparator, threshold: real): bool {
    match c
    case GT => v > threshold
    case GE => v >= threshold
    case LT => v < threshold
    case LE => v <= threshold
    case EQ => v == threshold
    case NE => v != threshold
    case Unknown => false
  }

  /** Of two opposite comparators exactly one holds, and the weak ones are the strict ones or equality. */
  lemma ComparatorLaws(v: real, threshold: real)
    ensures Compare(v, GT, threshold) <==> !Compare(v, LE, threshold)
    ensures Compare(v, LT, threshold) <==> !Compare(v, GE, threshold)
    ensures Compare(v, EQ, threshold) <==> !Compare(v, NE, threshold)
    ensures Compare(v, EQ, threshold) <==> v == threshold
    ensures Compare(v, GE, threshold) <==> Compare(v, GT, threshold) || Compare(v, EQ, threshold)
    ensures Compare(v, LE, threshold) <==> Compare(v, LT, threshold) || Compare(v, EQ, threshold)
    ensures !Compare(v, Unknown, threshold)
  {}

  /** A value that is above a threshold stays so as it grows, and one below it as it shrinks. */
  lemma ComparatorsMonotone(v: real, more: real, threshold: real)
    requires v <= more
    ensures Compare(v, GT, threshold) ==> Compare(more, GT, threshold)
    ensures Compare(more, LT, threshold) ==> Compare(v, LT, threshold)
    ensures !Compare(threshold, GT, threshold) && !Compare(threshold, LT, threshold)
    ensures threshold < more ==> Compare(more, GT, threshold)
    ensures v < threshold ==> Compare(v, LT, threshold)
  {}

  datatype Rule = Rule(id: string, severity: string, comparator: Comparator, threshold: real,
                       holdFor: Time, eventType: string, summary: string)

  /** `subject` renders the scope, the instance, the database and the labels of a sample. */
  datatype Sample = Sample(subject: string, value: real, ts: Option<Time>, inapplicable: bool)

  datatype State = Pending | Firing | Resolved

  datatype Alert = Alert(key: string, ruleId: string, severity: string, state: State, subject: string,
                         value: real, summary: string, startedAt: Time, lastEvalAt: Time,
                         resolvedAt: Option<Time>, suppressed: bool)

  datatype Episode = Episode(first: Time, seen: Time, firing: bool, alert: Alert)

  type Episodes = map<string, Episode>

  datatype Transition = NoChange | Opened | Fired | Cleared | Cancelled

  datatype StepResult = StepResult(states: Episodes, alert: Option<Alert>, transition: Transition)

  function Key(r: Rule, s: Sample): string {
    r.id + "/" + s.subject
  }

  predicate Holds(r: Rule, s: Sample) {
    !s.inapplicable && (r.eventType != "" || Compare(s.value, r.comparator, r.threshold))
  }

  function StartOf(s: Sample, now: Time): Time {
    if s.ts.Some? then s.ts.value else now
  }

  function NewAlert(k: string, r: Rule, s: Sample, state: State, now: Time): Alert {
    Alert(k, r.id, r.severity, state, s.subject, s.value, r.summary, StartOf(s, now), now, None, false)
  }

  function EndEpisode(states: Episodes, key: string, now: Time): StepResult {
    if key !in states then StepResult(states, None, NoChange)
    else if states[key].firing then
      StepResult(states - {key},
                 Some(states[key].alert.(state := Resolved, lastEvalAt := now, resolvedAt := Some(now))), Cleared)
    else StepResult(states - {key}, None, Cancelled)
  }

  function StepEpisode(states: Episodes, k: string, r: Rule, s: Sample, now: Time): StepResult {
    if !Holds(r, s) then EndEpisode(states, k, now)
    else if k !in states then
      if r.holdFor == 0 then
        var a := NewAlert(k, r, s, Firing, now);
        StepResult(states[k := Episode(StartOf(s, now), now, true, a)], Some(a), Fired)
      else
        var a := NewAlert(k, r, s, Pending, now);
        StepResult(states[k := Episode(StartOf(s, now), now, false, a)], Some(a), Opened)
    else
      var was := states[k];
      var a := was.alert.(lastEvalAt := now, value := s.value);
      if !was.firing && now - was.first >= r.holdFor then
        StepResult(states[k := Episode(was.first, now, true, a.(state := Firing))], Some(a.(state := Firing)), Fired)
      else StepResult(states[k := was.(seen := now, alert := a)], Some(a), NoChange)
  }

  function RestoreEpisode(states: Episodes, a: Alert, now: Time): Episodes {
    if a.state == Pending || a.state == Firing
    then states[a.key := Episode(a.startedAt, now, a.state == Firing, a)]
    else states
  }

  function UndoEpisode(states: Episodes, key: string, prev: Option<Episode>): Episodes {
    if prev.Some? then states[key := prev.value] else states - {key}
  }

  function Lookup(states: Episodes, key: string): Option<Episode> {
    if key in states then Some(states[key]) else None
  }

  predicate Stale(e: Episode, selects: string -> bool, cutoff: Time) {
    selects(e.alert.ruleId) && e.seen < cutoff
  }

  function ForgetEpisodes(states: Episodes, before: Time): Episodes {
    map k | k in states && (states[k].firing || states[k].seen >= before) :: states[k]
  }

  /** What every method keeps: an episode is filed under its key and agrees with its alert. */
  ghost predicate EpisodesOk(states: Episodes) {
    forall k :: k in states ==>
      && states[k].alert.key == k
      && states[k].alert.startedAt == states[k].first
      && states[k].alert.state == (if states[k].firing then Firing else Pending)
  }

  predicate KeyBefore(a: Alert, b: Alert) {
    StringLess(a.key, b.key)
  }

  lemma KeyOrder(out: seq<Alert>)
    requires forall a, b :: a in out && b in out && a.key == b.key ==> a == b
    ensures StrictTotalOn(KeyBefore, out)
  {
    forall a, b | a in out && b in out
      ensures KeyBefore(a, b) ==> !KeyBefore(b, a)
      ensures a != b ==> KeyBefore(a, b) || KeyBefore(b, a)
    { StringLessTrichotomy(a.key, b.key); }
    forall a, b, c | a in out && b in out && c in out && KeyBefore(a, b) && KeyBefore(b, c)
      ensures KeyBefore(a, c)
    { StringLessTransitive(a.key, b.key, c.key); }
  }

  class Evaluator {
    var states: Episodes

    constructor ()
      ensures states == map[]
    {
      states := map[];
    }

    method Restore(a: Alert, now: Time)
      modifies this
      ensures states == RestoreEpisode(old(states), a, now)
    {
      if a.state != Pending && a.state != Firing {
        return;
      }
      states := states[a.key := Episode(a.startedAt, now, a.state == Firing, a)];
    }

    method Reset()
      modifies this
      ensures states == map[]
    {
      states := map[];
    }

    method Step(r: Rule, s: Sample, now: Time) returns (a: Option<Alert>, t: Transition)
      modifies this
      ensures StepResult(states, a, t) == StepEpisode(old(states), Key(r, s), r, s, now)
    {
      var k := Key(r, s);
      if !Holds(r, s) {
        a, t := End(k, now);
        return;
      }
      if k !in states {
        var first := if s.ts.Some? then s.ts.value else now;
        var st := Episode(first, now, false,
                          Alert(k, r.id, r.severity, Pending, s.subject, s.value, r.summary, first, now, None, false));
        if r.holdFor == 0 {
          st := st.(firing := true, alert := st.alert.(state := Firing));
          states := states[k := st];
          return Some(st.alert), Fired;
        }
        states := states[k := st];
        return Some(st.alert), Opened;
      }
      var st := states[k];
      st := st.(seen := now, alert := st.alert.(lastEvalAt := now, value := s.value));
      if !st.firing && now - st.first >= r.holdFor {
        st := st.(firing := true, alert := st.alert.(state := Firing));
        states := states[k := st];
        return Some(st.alert), Fired;
      }
      states := states[k := st];
      return Some(st.alert), NoChange;
    }

    method End(key: string, now: Time) returns (a: Option<Alert>, t: Transition)
      modifies this
      ensures StepResult(states, a, t) == EndEpisode(old(states), key, now)
    {
      if key !in states {
        return None, NoChange;
      }
      var st := states[key];
      states := states - {key};
      if st.firing {
        return Some(st.alert.(state := Resolved, lastEvalAt := now, resolvedAt := Some(now))), Cleared;
      }
      return None, Cancelled;
    }

    /** The undo closure of a checkpoint is the pair of this lookup and `Undo`. */
    method Checkpoint(key: string) returns (prev: Option<Episode>)
      ensures prev == Lookup(states, key)
    {
      prev := if key in states then Some(states[key]) else None;
    }

    method Undo(key: string, prev: Option<Episode>)
      modifies this
      ensures states == UndoEpisode(old(states), key, prev)
    {
      if prev.Some? {
        states := states[key := prev.value];
      } else {
        states := states - {key};
      }
    }

    /** The alerts of the firing episodes, each once. */
    method FiringEpisodes() returns (out: seq<Alert>)
      requires EpisodesOk(states)
      ensures forall a :: a in out <==> a.key in states && states[a.key].firing && states[a.key].alert == a
      ensures NoDuplicates(out)
    {
      out := [];
      var todo := states.Keys;
      while todo != {}
        invariant todo <= states.Keys && NoDuplicates(out)
        invariant forall a :: a in out <==>
          a.key in states && a.key !in todo && states[a.key].firing && states[a.key].alert == a
      {
        var k :| k in todo;
        todo := todo - {k};
        if states[k].firing {
          out := out + [states[k].alert];
        }
      }
    }

    /** The stale episodes of the selected rules, each once, in key order. Nothing is closed here. */
    method Unsampled(selects: string -> bool, cutoff: Time) returns (out: seq<Alert>)
      requires EpisodesOk(states)
      ensures forall a :: a in out <==>
        && a.key in states && states[a.key].alert == a
        && selects(states[a.key].alert.ruleId) && states[a.key].seen < cutoff
      ensures SortedBy(KeyBefore, out) && NoDuplicates(out)
    {
      out := [];
      var todo := states.Keys;
      while todo != {}
        invariant todo <= states.Keys && NoDuplicates(out)
        invariant forall a :: a in out <==>
          a.key in states && a.key !in todo && states[a.key].alert == a && Stale(states[a.key], selects, cutoff)
      {
        var k :| k in todo;
        todo := todo - {k};
        if selects(states[k].alert.ruleId) && states[k].seen < cutoff {
          out := out + [states[k].alert];
        }
      }
      KeyOrder(out);
      SortSorted(out, KeyBefore);
      NoDuplicatesPermuted(out, Sort(out, KeyBefore));
      out := Sort(out, KeyBefore);
    }

    method Forget(before: Time) returns (n: nat)
      modifies this
      ensures states == ForgetEpisodes(old(states), before)
      ensures forall k :: k in states <==> k in old(states) && (old(states)[k].firing || old(states)[k].seen >= before)
      ensures forall k :: k in states ==> states[k] == old(states)[k]
      ensures n == |old(states)| - |states|
    {
      n := 0;
      var todo := states.Keys;
      while todo != {}
        invariant todo <= states.Keys <= old(states.Keys)
        invariant forall k :: k in states ==> states[k] == old(states)[k]
        invariant forall k :: k in old(states) ==>
          (k in states <==> k in todo || old(states)[k].firing || old(states)[k].seen >= before)
        invariant n == |old(states)| - |states|
      {
        var k :| k in todo;
        todo := todo - {k};
        if !states[k].firing && states[k].seen < before {
          ghost var kept := states;
          states := states - {k};
          assert kept.Keys == states.Keys + {k};
          n := n + 1;
        }
      }
      assert states == ForgetEpisodes(old(states), before);
    }
  }
}
