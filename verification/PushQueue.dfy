/** The agent's in-memory delivery queue, and the loop that pushes it to the server. */
module PushQueue {
  import opened Basics

  /** An envelope is known by its number in the order of queueing. */
  type Envelope = nat

  const MAX_PENDING := 1024

  /** Seconds. */
  const ATTEMPT_TIMEOUT := 10
  const MAX_ATTEMPT_TIMEOUT := 120

  /** The wait for an attempt that follows some attempts the server received and did not answer in time. */
  function TimeoutAfter(stalls: nat): nat {
    match stalls
    case 0 => 10
    case 1 => 20
    case 2 => 40
    case 3 => 80
    case _ => 120
  }

  method AttemptTimeoutAfter(stalls: nat) returns (d: nat)
    ensures d == TimeoutAfter(stalls)
  {
    d := ATTEMPT_TIMEOUT;
    var i := 0;
    while i < stalls && d < MAX_ATTEMPT_TIMEOUT
      invariant 0 <= i <= stalls && i <= 4
      invariant d == if i < 4 then TimeoutAfter(i) else 160
      decreases stalls - i
    {
      d := d * 2;
      i := i + 1;
    }
    d := if d < MAX_ATTEMPT_TIMEOUT then d else MAX_ATTEMPT_TIMEOUT;
  }

  // ---- one envelope ----

  /** What one attempt comes to. The context can end only while a retry waits its turn. */
  datatype Reply = EncodeError | NetworkError(sent: bool, timeout: bool) | Status(code: int) | Cancelled

  /** The envelope being delivered: the attempts made, and how many of them stalled. */
  datatype Flight = Flight(env: Envelope, attempts: nat, stalls: nat)

  datatype Verdict = Acked | Dropped | RetryLater | Again(stalls: nat)

  function JudgeStatus(stalls: nat, code: int): Verdict {
    if code == 202 then Acked
    else if code == 400 || code == 413 then Dropped
    else if code == 401 || code == 404 || code == 405 then RetryLater
    else if code == 408 || code == 425 || code == 429 || code >= 500 then Again(stalls)
    else Dropped
  }

  function Judge(f: Flight, r: Reply): Verdict {
    match r
    case EncodeError => Dropped
    case Cancelled => RetryLater
    case NetworkError(sent, timeout) =>
      if !(sent && timeout) then Again(f.stalls)
      else if TimeoutAfter(f.stalls) >= MAX_ATTEMPT_TIMEOUT then Dropped
      else Again(f.stalls + 1)
    case Status(code) => JudgeStatus(f.stalls, code)
  }

  predicate Stalls(r: Reply) {
    r.NetworkError? && r.sent && r.timeout
  }

  // ---- the queue as a system of steps ----

  datatype State = State(queued: nat, pending: seq<Envelope>, flight: Option<Flight>, acked: seq<Envelope>,
                         dropped: seq<Envelope>)

  datatype Step = Queue | Take | Answer(reply: Reply)

  function Enqueued(s: State): State {
    var drop := if |s.pending| >= MAX_PENDING then |s.pending| - MAX_PENDING + 1 else 0;
    s.(queued := s.queued + 1, pending := s.pending[drop..] + [s.queued], dropped := s.dropped + s.pending[..drop])
  }

  function Landed(s: State, f: Flight, v: Verdict): State {
    match v
    case Acked => s.(flight := None, acked := s.acked + [f.env])
    case Dropped => s.(flight := None, dropped := s.dropped + [f.env])
    case RetryLater => s.(flight := None, pending := [f.env] + s.pending)
    case Again(stalls) => s.(flight := Some(Flight(f.env, f.attempts + 1, stalls)))
  }

  /** A step that cannot be taken changes nothing. */
  function Next(s: State, step: Step): State {
    match step
    case Queue => Enqueued(s)
    case Take => if s.flight.None? && s.pending != []
      then s.(flight := Some(Flight(s.pending[0], 0, 0)), pending := s.pending[1..]) else s
    case Answer(r) =>
      if s.flight.Some? && (r.Cancelled? ==> s.flight.value.attempts > 0)
      then Landed(s, s.flight.value, Judge(s.flight.value, r))
      else s
  }

  datatype Run = Start | Then(prev: Run, step: Step)

  function After(run: Run): State {
    match run
    case Start => State(0, [], None, [], [])
    case Then(prev, step) => Next(After(prev), step)
  }

  // ---- what every step keeps ----

  predicate Increasing(s: seq<Envelope>) {
    forall i, j :: 0 <= i < j < |s| ==> s[i] < s[j]
  }

  function InFlight(s: State): seq<Envelope> {
    if s.flight.Some? then [s.flight.value.env] else []
  }

  /** Acknowledged, in flight and pending envelopes, one after the other. */
  function Line(s: State): seq<Envelope> {
    s.acked + InFlight(s) + s.pending
  }

  /** They are in the order of queueing. */
  ghost predicate InOrder(s: State) {
    Increasing(Line(s)) && forall i :: 0 <= i < |Line(s)| ==> Line(s)[i] < s.queued
  }

  /** In how many places an envelope is. */
  function Places(s: State, e: Envelope): nat {
    multiset(s.acked)[e] + multiset(s.dropped)[e] + multiset(InFlight(s))[e] + multiset(s.pending)[e]
  }

  /** Every envelope queued so far is in one place, once. */
  ghost predicate Conserved(s: State) {
    forall e: Envelope :: Places(s, e) == if e < s.queued then 1 else 0
  }

  predicate Bounded(s: State) {
    |s.pending| + |InFlight(s)| <= MAX_PENDING + 1 && (s.flight.Some? ==> s.flight.value.stalls <= 4)
  }

  ghost predicate Inv(s: State) {
    InOrder(s) && Conserved(s) && Bounded(s)
  }

  lemma QueueOrder(s: State)
    requires InOrder(s)
    ensures InOrder(Enqueued(s))
  {
    var drop := if |s.pending| >= MAX_PENDING then |s.pending| - MAX_PENDING + 1 else 0;
    var front, rest := s.acked + InFlight(s), s.pending[drop..];
    assert Line(Enqueued(s)) == front + rest + [s.queued];
    assert Line(s) == front + s.pending;
    ShorterLine(front, s.pending, drop, s.queued);
  }

  /** A line stays in order when some are taken out and the newest is put at its end. */
  lemma ShorterLine(front: seq<Envelope>, pending: seq<Envelope>, drop: nat, queued: nat)
    requires drop <= |pending| && Increasing(front + pending) && forall i :: 0 <= i < |front + pending| ==>
      (front + pending)[i] < queued
    ensures Increasing(front + pending[drop..] + [queued])
    ensures forall i :: 0 <= i < |front + pending[drop..] + [queued]| ==>
      (front + pending[drop..] + [queued])[i] < queued + 1
  {
    var was, rest := front + pending, front + pending[drop..];
    forall i | 0 <= i < |rest| ensures rest[i] == was[if i < |front| then i else i + drop] {}
  }

  lemma QueueConserves(s: State)
    requires Conserved(s)
    ensures Conserved(Enqueued(s))
  {
    forall e: Envelope ensures Places(Enqueued(s), e) == if e < s.queued + 1 then 1 else 0 {
      assert Places(s, e) == if e < s.queued then 1 else 0;
      QueuePlaces(s, e);
    }
  }

  lemma QueuePlaces(s: State, e: Envelope)
    ensures Places(Enqueued(s), e) == Places(s, e) + if e == s.queued then 1 else 0
  {
    var drop := if |s.pending| >= MAX_PENDING then |s.pending| - MAX_PENDING + 1 else 0;
    assert s.pending == s.pending[..drop] + s.pending[drop..];
  }

  lemma TakeKeeps(s: State)
    requires Inv(s) && s.flight.None? && s.pending != []
    ensures Inv(Next(s, Take))
  {
    var t := Next(s, Take);
    assert s.pending == [s.pending[0]] + s.pending[1..];
    assert Line(t) == Line(s);
    forall e: Envelope ensures Places(t, e) == if e < t.queued then 1 else 0 {
      assert Places(s, e) == if e < s.queued then 1 else 0;
    }
  }

  lemma LandedOrder(s: State, f: Flight, v: Verdict)
    requires InOrder(s) && s.flight == Some(f)
    ensures InOrder(Landed(s, f, v))
  {
    var t := Landed(s, f, v);
    if v.Dropped? {
      assert Line(t) == s.acked + s.pending;
      forall i | 0 <= i < |Line(t)| ensures Line(t)[i] == Line(s)[if i < |s.acked| then i else i + 1] {}
    } else {
      assert Line(t) == Line(s);
    }
  }

  lemma LandedConserves(s: State, f: Flight, v: Verdict)
    requires Conserved(s) && s.flight == Some(f)
    ensures Conserved(Landed(s, f, v))
  {
    var t := Landed(s, f, v);
    forall e: Envelope ensures Places(t, e) == if e < t.queued then 1 else 0 {
      assert Places(s, e) == if e < s.queued then 1 else 0;
    }
  }

  lemma AnswerKeeps(s: State, r: Reply)
    requires Inv(s) && s.flight.Some?
    ensures Inv(Landed(s, s.flight.value, Judge(s.flight.value, r)))
  {
    LandedOrder(s, s.flight.value, Judge(s.flight.value, r));
    LandedConserves(s, s.flight.value, Judge(s.flight.value, r));
  }

  lemma {:induction false} RunInv(run: Run)
    ensures Inv(After(run))
  {
    match run
    case Start =>
    case Then(prev, step) =>
      RunInv(prev);
      var s := After(prev);
      match step
      case Queue => QueueOrder(s); QueueConserves(s);
      case Take => if s.flight.None? && s.pending != [] { TakeKeeps(s); }
      case Answer(r) => if s.flight.Some? { AnswerKeeps(s, r); }
  }

  // ---- what is promised ----

  function Total(s: State): nat {
    |s.acked| + |s.dropped| + |InFlight(s)| + |s.pending|
  }

  lemma {:induction false} RunTotal(run: Run)
    ensures After(run).queued == Total(After(run))
  {
    if run.Then? { RunTotal(run.prev); }
  }

  /**
    In every run, whatever the network does and whenever envelopes are queued: each envelope is
    acknowledged, dropped, in flight or pending, exactly one of these; the acknowledged ones are in
    the order of queueing; and the queue stays within its bound.
  */
  lemma QueueIsSafe(run: Run)
    ensures var s := After(run);
            && s.queued == |s.acked| + |s.dropped| + |InFlight(s)| + |s.pending|
            && Conserved(s) && Increasing(s.acked) && |s.pending| <= 1025
  {
    RunInv(run);
    RunTotal(run);
    var s := After(run);
    assert forall i :: 0 <= i < |s.acked| ==> s.acked[i] == Line(s)[i];
  }

  // ---- which answers acknowledge, drop or keep an envelope ----

  predicate IsInFlight(s: State, e: Envelope) {
    s.flight.Some? && s.flight.value.env == e
  }

  predicate StallsNow(s: State, step: Step, e: Envelope) {
    step.Answer? && Stalls(step.reply) && s.flight.Some? && s.flight.value.env == e
  }

  predicate TakenNow(s: State, step: Step, e: Envelope) {
    step.Take? && s.flight.None? && s.pending != [] && s.pending[0] == e
  }

  /** The envelope was in flight when the server answered that it accepted it. */
  predicate Accepted(run: Run, e: Envelope) {
    run.Then? && (Accepted(run.prev, e) || (run.step == Answer(Status(202)) && IsInFlight(After(run.prev), e)))
  }

  /** How often the envelope has stalled since it was last taken from the queue. */
  function StalledSince(run: Run, e: Envelope): nat {
    if run.Start? || TakenNow(After(run.prev), run.step, e) then 0
    else StalledSince(run.prev, e) + if StallsNow(After(run.prev), run.step, e) then 1 else 0
  }

  /** A status that is neither success nor one that a later attempt may mend. */
  predicate Hopeless(code: int) {
    code < 500 && code !in {202, 401, 404, 405, 408, 425, 429}
  }

  /** The full queue loses the envelope: it is the oldest pending one, and there are as many as may be. */
  predicate Overflows(s: State, step: Step, e: Envelope) {
    step.Queue? && |s.pending| >= 1024 && e in s.pending[..|s.pending| - 1023]
  }

  /** The last step loses the envelope. */
  predicate Loses(run: Run, e: Envelope)
    requires run.Then?
  {
    var s := After(run.prev);
    || Overflows(s, run.step, e)
    || (IsInFlight(s, e) && run.step == Answer(EncodeError))
    || (IsInFlight(s, e) && StallsNow(s, run.step, e) && StalledSince(run.prev, e) == 4)
    || (IsInFlight(s, e) && run.step.Answer? && run.step.reply.Status? && Hopeless(run.step.reply.code))
  }

  predicate Lost(run: Run, e: Envelope) {
    run.Then? && (Lost(run.prev, e) || Loses(run, e))
  }

  lemma {:induction false} FlightStalls(run: Run, e: Envelope)
    ensures IsInFlight(After(run), e) ==> After(run).flight.value.stalls == StalledSince(run, e)
  {
    if run.Then? { FlightStalls(run.prev, e); }
  }

  /** An envelope is acknowledged if and only if it was in flight at an answer 202. */
  lemma {:induction false} AckedExactly(run: Run, e: Envelope)
    ensures e in After(run).acked <==> Accepted(run, e)
  {
    if run.Then? { AckedExactly(run.prev, e); }
  }

  lemma QueueDrops(s: State, e: Envelope)
    ensures e in Enqueued(s).dropped <==> e in s.dropped || Overflows(s, Queue, e)
  {}

  lemma AnswerDrops(s: State, r: Reply, e: Envelope)
    requires s.flight.Some? ==> s.flight.value.stalls <= 4
    ensures e in Next(s, Answer(r)).dropped <==>
      || e in s.dropped
      || (IsInFlight(s, e) && (|| r.EncodeError?
                               || (Stalls(r) && s.flight.value.stalls == 4)
                               || (r.Status? && Hopeless(r.code))))
  {}

  /**
    An envelope is dropped if and only if a full queue lost it, it could not be encoded, it stalled a
    fifth time since it was taken, or the server answered with a status that no later attempt can mend.
  */
  lemma {:induction false} DroppedExactly(run: Run, e: Envelope)
    ensures e in After(run).dropped <==> Lost(run, e)
  {
    if run.Then? {
      DroppedExactly(run.prev, e);
      RunInv(run.prev);
      FlightStalls(run.prev, e);
      match run.step
      case Queue => QueueDrops(After(run.prev), e);
      case Take =>
      case Answer(r) => AnswerDrops(After(run.prev), r, e);
    }
  }

  /**
    What an answer leaves of the envelope in flight. One that has to wait is at the head of the queue,
    and one that is tried again is still in flight; only a stall counts against it.
  */
  lemma AnswerLeaves(run: Run, r: Reply)
    requires After(run).flight.Some?
    ensures var s, t := After(run), After(Then(run, Answer(r))); var f := s.flight.value;
      && (r == Status(202) ==> t == s.(flight := None, acked := s.acked + [f.env]))
      && (r.Status? && r.code in {401, 404, 405} ==> t == s.(flight := None, pending := [f.env] + s.pending))
      && (r.Cancelled? && f.attempts > 0 ==> t == s.(flight := None, pending := [f.env] + s.pending))
      && (r.Status? && (r.code in {408, 425, 429} || r.code >= 500) ==>
            t == s.(flight := Some(f.(attempts := f.attempts + 1))))
      && (r.NetworkError? && !(r.sent && r.timeout) ==> t == s.(flight := Some(f.(attempts := f.attempts + 1))))
      && (Stalls(r) && f.stalls < 4 ==>
            t == s.(flight := Some(f.(attempts := f.attempts + 1, stalls := f.stalls + 1))))
  {}

  // ---- how often one envelope can stall ----

  /** The attempts of an envelope that the server received in full and did not answer in time. */
  function StallsOf(run: Run, e: Envelope): nat {
    if run.Start? then 0 else StallsOf(run.prev, e) + if StallsNow(After(run.prev), run.step, e) then 1 else 0
  }

  /** How often an envelope was taken from the queue. */
  function TakesOf(run: Run, e: Envelope): nat {
    if run.Start? then 0 else TakesOf(run.prev, e) + if TakenNow(After(run.prev), run.step, e) then 1 else 0
  }

  /** Four stalls for each time it was taken, less what it has left this time; one more if it was dropped. */
  predicate StallsFit(s: State, e: Envelope, stalls: nat, takes: nat) {
    if s.flight.Some? && s.flight.value.env == e
    then takes >= 1 && stalls <= 4 * (takes - 1) + s.flight.value.stalls
    else stalls <= 4 * takes + if e in s.dropped then 1 else 0
  }

  lemma OnePlace(s: State, e: Envelope)
    requires Inv(s) && (e in InFlight(s) || e in s.pending)
    ensures e !in s.dropped
  {
    assert Places(s, e) <= 1;
  }

  lemma StallsStep(s: State, step: Step, e: Envelope, stalls: nat, takes: nat)
    requires Inv(s) && StallsFit(s, e, stalls, takes)
    ensures StallsFit(Next(s, step), e,
                      stalls + if StallsNow(s, step, e) then 1 else 0, takes + if TakenNow(s, step, e) then 1 else 0)
  {
    if e in InFlight(s) || e in s.pending {
      OnePlace(s, e);
    }
    if step.Answer? && s.flight.Some? {
      assert s.flight.value.env in InFlight(s);
    }
  }

  /** An envelope stalls at most four times each time it is taken, and once more when that drops it. */
  lemma {:induction false} StallsBounded(run: Run, e: Envelope)
    ensures StallsFit(After(run), e, StallsOf(run, e), TakesOf(run, e))
  {
    if run.Then? {
      StallsBounded(run.prev, e);
      RunInv(run.prev);
      StallsStep(After(run.prev), run.step, e, StallsOf(run.prev, e), TakesOf(run.prev, e));
    }
  }

  /** An envelope that is taken once has at most five stalls, and then it is gone. */
  lemma AtMostFiveStalls(run: Run, e: Envelope)
    requires TakesOf(run, e) <= 1
    ensures StallsOf(run, e) <= 5 && (StallsOf(run, e) == 5 ==> e in After(run).dropped)
  {
    StallsBounded(run, e);
    RunInv(run);
  }

  // ---- and how often it can when it is taken again ----

  function Stall(): Step {
    Answer(NetworkError(true, true))
  }

  /** Four stalls, and then the context ends. */
  function Round(run: Run): Run {
    Then(FourStalls(run), Answer(Cancelled))
  }

  function Waiting(stalls: nat): State {
    State(1, [], Some(Flight(0, stalls, stalls)), [], [])
  }

  lemma StallOnce(run: Run, stalls: nat)
    requires After(run) == Waiting(stalls) && stalls < 4
    ensures After(Then(run, Stall())) == Waiting(stalls + 1)
    ensures StallsOf(Then(run, Stall()), 0) == StallsOf(run, 0) + 1 && TakesOf(Then(run, Stall()), 0) == TakesOf(run, 0)
  {
  }

  lemma TakeOnce(run: Run)
    requires After(run) == State(1, [0], None, [], [])
    ensures After(Then(run, Take)) == Waiting(0)
    ensures StallsOf(Then(run, Take), 0) == StallsOf(run, 0) && TakesOf(Then(run, Take), 0) == TakesOf(run, 0) + 1
  {
    var s := State(1, [0], None, [], []);
    assert Next(s, Take) == Waiting(0) && TakenNow(s, Take, 0) && !StallsNow(s, Take, 0);
    TakeFrom(run, s);
  }

  lemma TakeFrom(run: Run, s: State)
    requires After(run) == s
    ensures After(Then(run, Take)) == Next(s, Take)
    ensures StallsOf(Then(run, Take), 0) == StallsOf(run, 0) + if StallsNow(s, Take, 0) then 1 else 0
    ensures TakesOf(Then(run, Take), 0) == TakesOf(run, 0) + if TakenNow(s, Take, 0) then 1 else 0
  {
    hide Next, StallsNow, TakenNow;
  }

  /** An envelope that is taken and stalls four times. */
  function FourStalls(run: Run): Run {
    Then(Then(Then(Then(Then(run, Take), Stall()), Stall()), Stall()), Stall())
  }

  lemma FourStallsKeep(run: Run)
    requires After(run) == State(1, [0], None, [], [])
    ensures After(FourStalls(run)) == Waiting(4)
    ensures StallsOf(FourStalls(run), 0) == StallsOf(run, 0) + 4 && TakesOf(FourStalls(run), 0) == TakesOf(run, 0) + 1
  {
    hide After, StallsOf, TakesOf;
    var r0 := Then(run, Take);
    TakeOnce(run);
    var r1 := Then(r0, Stall());
    var r2 := Then(r1, Stall());
    StallOnce(r0, 0);
    StallOnce(r1, 1);
    StallOnce(r2, 2);
    StallOnce(Then(r2, Stall()), 3);
  }

  lemma RoundKeeps(run: Run)
    requires After(run) == State(1, [0], None, [], [])
    ensures After(Round(run)) == After(run)
    ensures StallsOf(Round(run), 0) == StallsOf(run, 0) + 4 && TakesOf(Round(run), 0) == TakesOf(run, 0) + 1
  {
    FourStallsKeep(run);
    Cancelling(FourStalls(run));
  }

  lemma Cancelling(run: Run)
    requires After(run) == Waiting(4)
    ensures After(Then(run, Answer(Cancelled))) == State(1, [0], None, [], [])
    ensures StallsOf(Then(run, Answer(Cancelled)), 0) == StallsOf(run, 0)
    ensures TakesOf(Then(run, Answer(Cancelled)), 0) == TakesOf(run, 0)
  {
  }

  lemma FifthStall(run: Run)
    requires After(run) == Waiting(4)
    ensures After(Then(run, Stall())).dropped == [0]
    ensures StallsOf(Then(run, Stall()), 0) == StallsOf(run, 0) + 1 && TakesOf(Then(run, Stall()), 0) == TakesOf(run, 0)
  {
  }

  /** Over several pushes there is no limit: each cancelled one starts the count anew. */
  lemma {:induction false} StallsWithoutLimit(n: nat) returns (run: Run)
    ensures After(run) == State(1, [0], None, [], []) && StallsOf(run, 0) == 4 * n && TakesOf(run, 0) == n
  {
    if n == 0 {
      run := Then(Start, Queue);
    } else {
      var before := StallsWithoutLimit(n - 1);
      RoundKeeps(before);
      run := Round(before);
    }
  }

  /** No run in which an envelope is taken k times has it stall more than m times. */
  ghost predicate AtMost(k: nat, m: nat) {
    forall run, e :: TakesOf(run, e) == k ==> StallsOf(run, e) <= m
  }

  /** Four stalls for each time an envelope is taken and one more: that is the least limit that holds. */
  lemma StallLimit(k: nat, m: nat)
    requires k >= 1
    ensures AtMost(k, m) <==> 4 * k + 1 <= m
  {
    var before := StallsWithoutLimit(k - 1);
    FourStallsKeep(before);
    FifthStall(FourStalls(before));
    var most := Then(FourStalls(before), Stall());
    assert TakesOf(most, 0) == k && StallsOf(most, 0) == 4 * k + 1;
    forall run, e | TakesOf(run, e) == k ensures StallsOf(run, e) <= 4 * k + 1 {
      StallsBounded(run, e);
      RunInv(run);
    }
  }

  /** The limit of five stalls holds if and only if the envelope is taken at most once. */
  lemma FiveStallsExactly(k: nat)
    ensures AtMost(k, 5) <==> k <= 1
  {
    if k == 0 {
      forall run, e | TakesOf(run, e) == k ensures StallsOf(run, e) <= 5 { AtMostFiveStalls(run, e); }
    } else {
      StallLimit(k, 5);
    }
  }

  // ---- the pusher ----

  /** One attempt as the outside world makes it: what is queued meanwhile, and what comes back. */
  datatype Attempt = Attempt(arrivals: nat, reply: Reply)

  predicate Extends(run: Run, longer: Run) {
    run == longer || (longer.Then? && Extends(run, longer.prev))
  }

  lemma {:induction false} ExtendsFurther(a: Run, b: Run, c: Run)
    requires Extends(a, b) && Extends(b, c)
    ensures Extends(a, c)
  {
    if b != c { ExtendsFurther(a, b, c.prev); }
  }

  class Pusher {
    var pending: seq<Envelope>
    var queued: nat
    var nAcked: nat
    var nDropped: nat
    ghost var run: Run

    /** The fields are what the run so far makes them. */
    ghost predicate Valid(flight: Option<Flight>)
      reads this
    {
      var s := After(run);
      s.pending == pending && s.queued == queued && s.flight == flight && |s.acked| == nAcked && |s.dropped| == nDropped
    }

    constructor ()
      ensures Valid(None) && run == Start
    {
      pending, queued, nAcked, nDropped, run := [], 0, 0, 0, Start;
    }

    /** Queues an envelope. A full queue loses its oldest ones. */
    method Queue(ghost flight: Option<Flight>)
      requires Valid(flight)
      modifies this
      ensures Valid(flight) && run == Then(old(run), Step.Queue)
    {
      if |pending| >= MAX_PENDING {
        var drop := |pending| - MAX_PENDING + 1;
        pending := pending[drop..];
        nDropped := nDropped + drop;
      }
      pending := pending + [queued];
      queued := queued + 1;
      run := Then(run, Step.Queue);
    }

    method QueueMany(n: nat, ghost flight: Option<Flight>)
      requires Valid(flight)
      modifies this
      ensures Valid(flight) && Extends(old(run), run)
    {
      for i := 0 to n
        invariant Valid(flight) && Extends(old(run), run)
      {
        Queue(flight);
      }
    }

    /** The envelope is consumed: acknowledged, or dropped and counted. */
    method Consume(ghost f: Flight, ghost r: Reply, ack: bool)
      requires Valid(Some(f)) && !r.Cancelled? && Judge(f, r) == (if ack then Acked else Dropped)
      modifies this
      ensures Valid(None) && run == Then(old(run), Answer(r))
    {
      if ack {
        nAcked := nAcked + 1;
      } else {
        nDropped := nDropped + 1;
      }
      run := Then(run, Answer(r));
    }

    /**
      Delivers one envelope, and retries until it is consumed or has to wait for a later push. The
      attempts run out when the context ends.
    */
    method PushOne(env: Envelope, attempts: seq<Attempt>)
      returns (consumed: bool, failed: bool, left: seq<Attempt>, ghost f: Flight, ghost r: Reply)
      requires Valid(Some(Flight(env, 0, 0)))
      modifies this
      ensures Extends(old(run), run) && (attempts != [] ==> |left| < |attempts|)
      ensures consumed ==> Valid(None) && run.Then? && run.step == Answer(r) && (failed <==> r.EncodeError?)
      ensures !consumed ==>
        Valid(Some(f)) && f.env == env && Judge(f, r) == RetryLater && (r.Cancelled? ==> f.attempts > 0)
    {
      left := attempts;
      failed := false;
      var attempt, stalls := 0, 0;
      f, r := Flight(env, 0, 0), Cancelled;
      while true
        invariant Valid(Some(f)) && f == Flight(env, attempt, stalls) && !failed
        invariant Extends(old(run), run) && |left| <= |attempts|
        invariant (attempt > 0 && attempts != [] ==> |left| < |attempts|)
        decreases |left| + (if attempt == 0 then 1 else 0)
      {
        var reply := Cancelled;
        if |left| > 0 {
          QueueDuring(left[0].arrivals, f, old(run));
          reply, left := left[0].reply, left[1..];
        }
        if attempt > 0 && reply.Cancelled? {
          return false, false, left, f, reply;
        }
        // A context that has already ended fails the first attempt before anything is sent.
        r := if reply.Cancelled? then NetworkError(false, false) else reply;
        var verdict := Decide(stalls, if reply.Cancelled? then NetworkError(false, false) else reply, f);
        match verdict
        case Acked =>
          Consume(f, r, true);
          return true, false, left, f, r;
        case Dropped =>
          Consume(f, r, false);
          return true, reply.EncodeError?, left, f, r;
        case RetryLater =>
          return false, false, left, f, r;
        case Again(counted) =>
          run := Then(run, Answer(r));
          attempt, stalls := attempt + 1, counted;
          f := Flight(env, attempt, stalls);
      }
    }

    method QueueDuring(n: nat, ghost f: Flight, ghost start: Run)
      requires Valid(Some(f)) && Extends(start, run)
      modifies this
      ensures Valid(Some(f)) && Extends(start, run)
    {
      QueueMany(n, Some(f));
      ExtendsFurther(start, old(run), run);
    }

    /** What is to become of the envelope after one attempt. */
    method Decide(stalls: nat, reply: Reply, ghost f: Flight) returns (verdict: Verdict)
      requires f.stalls == stalls
      ensures verdict == Judge(f, reply)
    {
      match reply
      case EncodeError => return Dropped;
      case Cancelled => return RetryLater;
      case NetworkError(sent, expired) =>
        var timeout := AttemptTimeoutAfter(stalls);
        if !(sent && expired) {
          return Again(stalls);
        }
        if timeout >= MAX_ATTEMPT_TIMEOUT {
          return Dropped;
        }
        return Again(stalls + 1);
      case Status(code) =>
        match code
        case 202 => return Acked;
        case 400 => return Dropped;
        case 401 => return RetryLater;
        case 413 => return Dropped;
        case 408 => return Again(stalls);
        case 425 => return Again(stalls);
        case 429 => return Again(stalls);
        case 404 => return RetryLater;
        case 405 => return RetryLater;
        case _ =>
          if code >= 500 {
            return Again(stalls);
          }
          return Dropped;
    }

    /** Delivers what is queued, until the queue is empty, an envelope has to wait, or one cannot be encoded. */
    method Push(attempts: seq<Attempt>) returns (stop: Stop)
      requires Valid(None)
      modifies this
      ensures Valid(None) && Extends(old(run), run)
      ensures stop.Drained? ==> pending == []
      ensures stop.Waits? ==> pending != [] && run.Then? && LastVerdict(run) == Some(RetryLater)
      ensures stop.Failed? ==> run.Then? && run.step == Answer(EncodeError)
      ensures old(pending) != [] && attempts != [] ==> run != old(run)
    {
      var left := attempts;
      while |left| > 0
        invariant Valid(None) && Extends(old(run), run)
        invariant |left| < |attempts| ==> run != old(run)
        invariant |left| == |attempts| ==> run == old(run) && pending == old(pending)
        decreases |left|
      {
        if |pending| == 0 {
          return Drained;
        }
        var env := pending[0];
        pending := pending[1..];
        run := Then(run, Take);
        ghost var taken := run;
        var consumed, failed, rest, f, r := PushOne(env, left);
        ExtendsFurther(old(run), taken, run);
        Longer(old(run), taken, run);
        if !consumed {
          pending := [env] + pending;
          run := Then(run, Answer(r));
          Longer(old(run), taken, run);
          return Waits;
        }
        if failed {
          return Failed;
        }
        left := rest;
      }
      return if |pending| == 0 then Drained else Unfinished;
    }
  }

  /** Why a push came to its end. */
  datatype Stop = Drained | Waits | Failed | Unfinished

  function LastVerdict(run: Run): Option<Verdict> {
    if run.Start? || !run.step.Answer? || After(run.prev).flight.None? then None
    else Some(Judge(After(run.prev).flight.value, run.step.reply))
  }

  function Length(run: Run): nat {
    if run.Start? then 0 else 1 + Length(run.prev)
  }

  lemma {:induction false} ExtendsLength(a: Run, b: Run)
    requires Extends(a, b)
    ensures Length(a) <= Length(b)
  {
    if a != b { ExtendsLength(a, b.prev); }
  }

  lemma Longer(a: Run, b: Run, c: Run)
    requires b.Then? && Extends(a, b.prev) && Extends(b, c)
    ensures a != c
  {
    ExtendsLength(a, b.prev);
    ExtendsLength(b, c);
  }
}
