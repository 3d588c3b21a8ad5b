/**
  Leader election over a session-scoped advisory lock.

  Any number of engines run `ensureLeader`, each through the steps below, and the steps of all of
  them interleave with sessions that die at any moment. The alert engine and the advisor engine
  follow the same protocol, each with a lock of its own.
*/
module LeaderLock {
  import opened Basics

  type Session = nat

  /** Where an engine stands inside `ensureLeader`. `Replied` is a lock query that the server has answered. */
  datatype Step = Outside | Opened | Checked | NeedsConn | Asking | Replied(granted: bool)

  datatype Engine = Engine(conn: Option<Session>, hasLock: bool, step: Step)

  /** The session that holds the lock on the server, and how often it took it. */
  datatype Hold = Hold(session: Session, count: nat)

  /**
    `alive` are the sessions the server still runs, `closed` those the client knows to be closed,
    `idle` the ones in the pool, and `next` the number of the next session opened.
  */
  datatype System = System(engines: map<nat, Engine>, alive: set<Session>, closed: set<Session>,
                           idle: set<Session>, next: Session, holder: Option<Hold>)

  datatype Action =
    | Join(engine: nat)
    | OpenIdle
    | Die(session: Session)
    | NoticeClosed(session: Session)
    | Enter(engine: nat)
    | CheckClosed(engine: nat)
    | Ping(engine: nat, answered: bool)
    | Acquire(engine: nat, from: Option<Session>)
    | AcquireFails(engine: nat)
    | Ask(engine: nat)
    | AskFails(engine: nat)
    | NoRows(engine: nat)
    | Reply(engine: nat, lost: bool)
    | Stop(engine: nat)

  predicate At(s: System, e: nat, step: Step) {
    e in s.engines && s.engines[e].step == step
  }

  function SetEngine(s: System, e: nat, engine: Engine): System {
    s.(engines := s.engines[e := engine])
  }

  /** Drops the connection and the leadership with it. The session is closed and not used again. */
  function Release(s: System, e: nat, step: Step): System
    requires e in s.engines
  {
    var conn := s.engines[e].conn;
    SetEngine(s, e, Engine(None, false, step)).(closed := s.closed + if conn.Some? then {conn.value} else {})
  }

  /** A session that ends gives up what it holds. */
  function FreeIfHeld(holder: Option<Hold>, session: Session): Option<Hold> {
    if holder.Some? && holder.value.session == session then None else holder
  }

  /** The server's answer to a lock query: a session that holds the lock already takes it once more. */
  function TryLock(holder: Option<Hold>, session: Session): (Option<Hold>, bool) {
    if holder.None? then (Some(Hold(session, 1)), true)
    else if holder.value.session == session then (Some(Hold(session, holder.value.count + 1)), true)
    else (holder, false)
  }

  function Unlock(holder: Option<Hold>, session: Session): Option<Hold> {
    if holder.Some? && holder.value.session == session then
      if holder.value.count <= 1 then None else Some(Hold(session, holder.value.count - 1))
    else holder
  }

  /** One step of the system. An action that is not possible changes nothing. */
  function Next(s: System, a: Action): System {
    match a
    case Join(e) => if e in s.engines then s else SetEngine(s, e, Engine(None, false, Outside))
    case OpenIdle => s.(alive := s.alive + {s.next}, idle := s.idle + {s.next}, next := s.next + 1)
    case Die(x) => s.(alive := s.alive - {x}, holder := FreeIfHeld(s.holder, x))
    case NoticeClosed(x) => s.(closed := s.closed + {x})
    case Enter(e) => if At(s, e, Outside) then SetEngine(s, e, s.engines[e].(step := Opened)) else s
    case CheckClosed(e) =>
      if !At(s, e, Opened) then s
      else if s.engines[e].conn.Some? && s.engines[e].conn.value in s.closed then Release(s, e, Checked)
      else SetEngine(s, e, s.engines[e].(step := Checked))
    case Ping(e, answered) =>
      if !At(s, e, Checked) then s
      else if !(s.engines[e].hasLock && s.engines[e].conn.Some?) then SetEngine(s, e, s.engines[e].(step := NeedsConn))
      else if answered && s.engines[e].conn.value in s.alive then SetEngine(s, e, s.engines[e].(step := Outside))
      else Release(s, e, NeedsConn)
    case Acquire(e, from) =>
      if !At(s, e, NeedsConn) then s
      else if s.engines[e].conn.Some? then SetEngine(s, e, s.engines[e].(step := Asking))
      else if from.Some? && from.value in s.idle then
        SetEngine(s, e, Engine(Some(from.value), s.engines[e].hasLock, Asking)).(idle := s.idle - {from.value})
      else
        SetEngine(s, e, Engine(Some(s.next), s.engines[e].hasLock, Asking)).(alive := s.alive + {s.next},
          next := s.next + 1)
    case AcquireFails(e) =>
      if At(s, e, NeedsConn) && s.engines[e].conn.None? then SetEngine(s, e, s.engines[e].(step := Outside)) else s
    case Ask(e) =>
      if !At(s, e, Asking) || s.engines[e].conn.None? || s.engines[e].conn.value !in s.alive then s
      else
        var (holder, granted) := TryLock(s.holder, s.engines[e].conn.value);
        SetEngine(s, e, s.engines[e].(step := Replied(granted))).(holder := holder)
    case AskFails(e) => if At(s, e, Asking) then Release(s, e, Outside) else s
    case NoRows(e) => if At(s, e, Asking) then SetEngine(s, e, s.engines[e].(hasLock := false, step := Outside)) else s
    case Reply(e, lost) =>
      if e !in s.engines || !s.engines[e].step.Replied? then s
      else if lost then Release(s, e, Outside)
      else SetEngine(s, e, s.engines[e].(hasLock := s.engines[e].step.granted, step := Outside))
    case Stop(e) =>
      if !At(s, e, Outside) then s
      else if s.engines[e].conn.None? then SetEngine(s, e, Engine(None, false, Outside))
      else if s.engines[e].conn.value in s.alive && s.engines[e].conn.value !in s.closed then
        SetEngine(s, e, Engine(None, false, Outside)).(
          idle := s.idle + {s.engines[e].conn.value}, holder := Unlock(s.holder, s.engines[e].conn.value))
      else Release(s, e, Outside)
  }

  datatype Run = Start | Then(prev: Run, action: Action)

  function After(run: Run): System {
    match run
    case Start => System(map[], {}, {}, {}, 0, None)
    case Then(prev, a) => Next(After(prev), a)
  }

  /** The engine believes that it leads, and its session is alive. */
  predicate Leads(s: System, e: nat) {
    e in s.engines && s.engines[e].hasLock && s.engines[e].conn.Some? && s.engines[e].conn.value in s.alive
  }

  predicate UsesSession(s: System, e: nat, x: Session) {
    e in s.engines && s.engines[e].conn == Some(x)
  }

  /** The engine has the lock, or is about to learn that it has it. */
  predicate Granted(engine: Engine) {
    engine.hasLock || engine.step == Replied(true)
  }

  ghost predicate Inv(s: System) {
    && (forall x :: x in s.alive || x in s.idle ==> x < s.next)
    && (forall e: nat, x: Session :: UsesSession(s, e, x) ==> x < s.next && x !in s.idle)
    && (forall e: nat, f: nat, x: Session :: UsesSession(s, e, x) && UsesSession(s, f, x) ==> e == f)
    && (forall e: nat :: e in s.engines && s.engines[e].hasLock ==> s.engines[e].step in {Outside, Opened, Checked})
    && (forall e: nat :: e in s.engines && Granted(s.engines[e]) ==> s.engines[e].conn.Some?)
    && (forall e: nat, x: Session :: UsesSession(s, e, x) && x in s.alive && Granted(s.engines[e]) ==>
      s.holder == Some(Hold(x, 1)))
    && (s.holder.Some? ==>
          s.holder.value.count == 1 && s.holder.value.session in s.alive && s.holder.value.session !in s.idle)
    && (forall e: nat :: s.holder.Some? && UsesSession(s, e, s.holder.value.session) ==> Granted(s.engines[e]))
  }

  /** Steps of one engine that leave its session where it is. */
  lemma KeepsInv(s: System, e: nat, engine: Engine)
    requires Inv(s) && e in s.engines && engine.conn == s.engines[e].conn
    requires engine.hasLock ==> engine.step in {Outside, Opened, Checked}
    requires Granted(engine) <==> Granted(s.engines[e])
    ensures Inv(SetEngine(s, e, engine))
  {
    var s' := SetEngine(s, e, engine);
    assert forall f: nat, x: Session :: UsesSession(s', f, x) <==> UsesSession(s, f, x);
    assert forall f: nat :: f in s'.engines ==> Granted(s'.engines[f]) == Granted(s.engines[f]);
  }

  lemma ReleaseInv(s: System, e: nat, step: Step)
    requires Inv(s) && e in s.engines && !step.Replied?
    ensures Inv(Release(s, e, step))
  {
    var s' := Release(s, e, step);
    assert forall f: nat, x: Session :: UsesSession(s', f, x) <==> f != e && UsesSession(s, f, x);
  }

  lemma EnvironmentInv(s: System, a: Action)
    requires Inv(s) && (a.Join? || a.OpenIdle? || a.Die? || a.NoticeClosed?)
    ensures Inv(Next(s, a))
  {
    var s' := Next(s, a);
    assert forall f: nat, x: Session :: UsesSession(s', f, x) <==> UsesSession(s, f, x);
  }

  lemma AcquireInv(s: System, e: nat, from: Option<Session>)
    requires Inv(s) && At(s, e, NeedsConn) && s.engines[e].conn.None?
    ensures Inv(Next(s, Acquire(e, from)))
  {
    var s' := Next(s, Acquire(e, from));
    var x := s'.engines[e].conn.value;
    assert forall f: nat, y: Session :: UsesSession(s', f, y) <==> if f == e then y == x else UsesSession(s, f, y);
  }

  lemma AskInv(s: System, e: nat)
    requires Inv(s) && At(s, e, Asking)
    ensures Inv(Next(s, Ask(e)))
  {
    var s' := Next(s, Ask(e));
    if s' != s {
      var x := s.engines[e].conn.value;
      assert UsesSession(s, e, x) && !Granted(s.engines[e]);
      assert forall f: nat, y: Session :: UsesSession(s', f, y) <==> UsesSession(s, f, y);
    }
  }

  lemma StopInv(s: System, e: nat)
    requires Inv(s) && At(s, e, Outside) && s.engines[e].conn.Some?
    requires s.engines[e].conn.value in s.alive && s.engines[e].conn.value !in s.closed
    ensures Inv(Next(s, Stop(e)))
  {
    var s' := Next(s, Stop(e));
    var x := s.engines[e].conn.value;
    assert UsesSession(s, e, x);
    assert forall f: nat, y: Session :: UsesSession(s', f, y) <==> f != e && UsesSession(s, f, y);
  }

  /** The way to the lock query. */
  lemma ApproachInv(s: System, a: Action)
    requires Inv(s) && (a.Enter? || a.CheckClosed? || a.Ping? || a.Acquire? || a.AcquireFails?)
    ensures Inv(Next(s, a))
  {
    match a
    case Enter(e) => if At(s, e, Outside) { KeepsInv(s, e, s.engines[e].(step := Opened)); }
    case CheckClosed(e) =>
      if At(s, e, Opened) {
        ReleaseInv(s, e, Checked);
        KeepsInv(s, e, s.engines[e].(step := Checked));
      }
    case Ping(e, _) =>
      if At(s, e, Checked) {
        ReleaseInv(s, e, NeedsConn);
        KeepsInv(s, e, s.engines[e].(step := Outside));
        if !s.engines[e].hasLock { KeepsInv(s, e, s.engines[e].(step := NeedsConn)); }
      }
    case Acquire(e, from) =>
      if At(s, e, NeedsConn) {
        KeepsInv(s, e, s.engines[e].(step := Asking));
        if s.engines[e].conn.None? { AcquireInv(s, e, from); }
      }
    case AcquireFails(e) => if At(s, e, NeedsConn) { KeepsInv(s, e, s.engines[e].(step := Outside)); }
  }

  /** The lock query, its answer, and the stop. */
  lemma AnswerInv(s: System, a: Action)
    requires Inv(s) && (a.Ask? || a.AskFails? || a.NoRows? || a.Reply? || a.Stop?)
    ensures Inv(Next(s, a))
  {
    match a
    case Ask(e) => if At(s, e, Asking) { AskInv(s, e); }
    case AskFails(e) => if At(s, e, Asking) { ReleaseInv(s, e, Outside); }
    case NoRows(e) => if At(s, e, Asking) { KeepsInv(s, e, s.engines[e].(hasLock := false, step := Outside)); }
    case Reply(e, _) =>
      if e in s.engines && s.engines[e].step.Replied? {
        ReleaseInv(s, e, Outside);
        KeepsInv(s, e, s.engines[e].(hasLock := s.engines[e].step.granted, step := Outside));
      }
    case Stop(e) =>
      if At(s, e, Outside) {
        if s.engines[e].conn.None? {
          KeepsInv(s, e, Engine(None, false, Outside));
        } else if s.engines[e].conn.value in s.alive && s.engines[e].conn.value !in s.closed {
          StopInv(s, e);
        } else {
          ReleaseInv(s, e, Outside);
        }
      }
  }

  lemma NextInv(s: System, a: Action)
    requires Inv(s)
    ensures Inv(Next(s, a))
  {
    if a.Join? || a.OpenIdle? || a.Die? || a.NoticeClosed? {
      EnvironmentInv(s, a);
    } else if a.Enter? || a.CheckClosed? || a.Ping? || a.Acquire? || a.AcquireFails? {
      ApproachInv(s, a);
    } else {
      AnswerInv(s, a);
    }
  }

  lemma {:induction false} RunInv(run: Run)
    ensures Inv(After(run))
  {
    if run.Then? {
      RunInv(run.prev);
      NextInv(After(run.prev), run.action);
    }
  }

  /**
    In every run, an engine that believes it leads and whose session is alive holds the lock, so
    there is at most one, and no session ever takes the lock twice.
  */
  lemma AtMostOneLeader(run: Run, e: nat, f: nat)
    ensures Leads(After(run), e) ==> After(run).holder == Some(Hold(After(run).engines[e].conn.value, 1))
    ensures Leads(After(run), e) && Leads(After(run), f) ==> e == f
    ensures After(run).holder.Some? ==> After(run).holder.value.count == 1
  {
    RunInv(run);
    if Leads(After(run), e) {
      assert UsesSession(After(run), e, After(run).engines[e].conn.value);
    }
    if Leads(After(run), f) {
      assert UsesSession(After(run), f, After(run).engines[f].conn.value);
    }
  }

  // ---- who comes to lead ----

  /** What an engine is told is what it believes: a granted lock makes it the leader, and a refusal does not. */
  lemma ReplyDecides(run: Run, e: nat)
    requires e in After(run).engines && After(run).engines[e].step.Replied?
    ensures var s, t := After(run), After(Then(run, Reply(e, false)));
      && t.engines[e].conn == s.engines[e].conn && t.engines[e].step == Outside
      && (s.engines[e].step.granted ==> s.engines[e].conn.Some?)
      && (s.engines[e].step.granted && s.engines[e].conn.Some? && s.engines[e].conn.value in s.alive ==> Leads(t, e))
      && (!s.engines[e].step.granted ==> !Leads(t, e))
      && t.holder == s.holder && t.alive == s.alive
  {
    RunInv(run);
  }

  /** A lock query on a live session is granted if and only if no session held the lock before. */
  lemma AskDecides(run: Run, e: nat)
    requires At(After(run), e, Asking) && After(run).engines[e].conn.Some?
    requires After(run).engines[e].conn.value in After(run).alive
    ensures var s, t := After(run), After(Then(run, Ask(e)));
      && t.engines[e] == s.engines[e].(step := Replied(s.holder.None?))
      && t.holder == (if s.holder.None? then Some(Hold(s.engines[e].conn.value, 1)) else s.holder)
  {
    RunInv(run);
    assert UsesSession(After(run), e, After(run).engines[e].conn.value);
  }

  /** A leader whose ping is answered leads on, without a query. */
  lemma PingKeeps(run: Run, e: nat)
    requires Leads(After(run), e) && At(After(run), e, Checked)
    ensures var t := After(Then(run, Ping(e, true))); Leads(t, e) && At(t, e, Outside) && t.holder == After(run).holder
  {}

  /** A leader whose ping is not answered, or whose session is known to be closed, gives the lead up. */
  lemma LostSessionDemotes(run: Run, e: nat)
    requires Leads(After(run), e)
    ensures At(After(run), e, Checked) ==> !Leads(After(Then(run, Ping(e, false))), e)
    ensures At(After(run), e, Opened) && After(run).engines[e].conn.value in After(run).closed ==>
      !Leads(After(Then(run, CheckClosed(e))), e)
  {}

  /** A leader that stops frees the lock. */
  lemma StopFrees(run: Run, e: nat)
    requires Leads(After(run), e) && At(After(run), e, Outside)
    requires After(run).engines[e].conn.value !in After(run).closed
    ensures var t := After(Then(run, Stop(e))); t.holder.None? && !Leads(t, e)
  {
    AtMostOneLeader(run, e, e);
  }

  predicate Extends(run: Run, base: Run) {
    run == base || (run.Then? && Extends(run.prev, base))
  }

  lemma {:induction false} ExtendsFurther(run: Run, mid: Run, base: Run)
    requires Extends(run, mid) && Extends(mid, base)
    ensures Extends(run, base)
  {
    if run != mid { ExtendsFurther(run.prev, mid, base); }
  }

  /** An engine without a session, past the checks, gets one and asks on it while the lock is free. */
  lemma AsksAndLeads(run: Run, e: nat) returns (longer: Run)
    requires After(run).holder.None? && At(After(run), e, NeedsConn) && After(run).engines[e].conn.None?
    ensures Extends(longer, run) && Leads(After(longer), e)
  {
    var acquired := Then(run, Acquire(e, None));
    assert At(After(acquired), e, Asking) && After(acquired).holder.None?;
    assert After(acquired).engines[e].conn == Some(After(run).next) && After(run).next in After(acquired).alive;
    var asked := Then(acquired, Ask(e));
    AskDecides(acquired, e);
    assert After(asked).alive == After(acquired).alive;
    longer := Then(asked, Reply(e, false));
    ReplyDecides(asked, e);
    assert Extends(acquired, run) && Extends(asked, run);
  }

  /** An engine whose session, if it has one, is known to be closed goes through the checks without one. */
  lemma EntersAnew(run: Run, e: nat) returns (longer: Run)
    requires At(After(run), e, Outside) && After(run).holder.None?
    requires After(run).engines[e].conn.Some? ==> After(run).engines[e].conn.value in After(run).closed
    requires After(run).engines[e].conn.None? ==> !After(run).engines[e].hasLock
    ensures Extends(longer, run) && After(longer).holder.None?
    ensures At(After(longer), e, NeedsConn) && After(longer).engines[e].conn.None?
  {
    var entered := Then(run, Enter(e));
    var checked := Then(entered, CheckClosed(e));
    assert At(After(entered), e, Opened) && At(After(checked), e, Checked);
    longer := Then(checked, Ping(e, true));
    assert Extends(entered, run) && Extends(checked, run);
  }

  /** From every reachable state with a free lock, an engine that is between its calls can come to lead. */
  lemma FreeLockIsTaken(run: Run, e: nat) returns (longer: Run)
    requires After(run).holder.None? && At(After(run), e, Outside)
    ensures Extends(longer, run) && Leads(After(longer), e)
  {
    RunInv(run);
    var engine := After(run).engines[e];
    var seen := if engine.conn.Some? then Then(run, NoticeClosed(engine.conn.value)) else run;
    assert After(seen).engines == After(run).engines && Extends(seen, run);
    var ready := EntersAnew(seen, e);
    longer := AsksAndLeads(ready, e);
    ExtendsFurther(longer, ready, seen);
    ExtendsFurther(longer, seen, run);
  }

  /** How many steps a call has left at most, when everything fails. */
  function StepsLeft(step: Step): nat {
    match step
    case Outside => 0
    case Opened => 4
    case Checked => 3
    case NeedsConn => 2
    case Asking => 1
    case Replied(_) => 1
  }

  /** The next step of a call that comes to nothing. */
  function FailNext(e: nat, engine: Engine): Action {
    match engine.step
    case Outside => Join(e)
    case Opened => CheckClosed(e)
    case Checked => Ping(e, false)
    case NeedsConn => if engine.conn.None? then AcquireFails(e) else Acquire(e, None)
    case Asking => AskFails(e)
    case Replied(_) => Reply(e, true)
  }

  /** A call that is under way can come to its end. */
  lemma {:induction false} CallEnds(run: Run, e: nat) returns (longer: Run)
    requires e in After(run).engines
    ensures Extends(longer, run) && At(After(longer), e, Outside)
    decreases StepsLeft(After(run).engines[e].step)
  {
    var engine := After(run).engines[e];
    if engine.step == Outside {
      longer := run;
    } else {
      var next := Then(run, FailNext(e, engine));
      longer := CallEnds(next, e);
      assert Extends(next, run);
      ExtendsFurther(longer, next, run);
    }
  }

  /**
    From every reachable state any engine, one that has yet to join too, can come to lead: nothing that
    happens before locks it out.
  */
  lemma CanAlwaysLead(run: Run, e: nat) returns (longer: Run)
    ensures Extends(longer, run) && Leads(After(longer), e)
  {
    var joined := Then(run, Join(e));
    var idle := CallEnds(joined, e);
    var holder := After(idle).holder;
    var free := if holder.Some? then Then(idle, Die(holder.value.session)) else idle;
    longer := FreeLockIsTaken(free, e);
    assert Extends(joined, run) && Extends(free, idle);
    ExtendsFurther(longer, free, idle);
    ExtendsFurther(longer, idle, joined);
    ExtendsFurther(longer, joined, run);
  }
}
