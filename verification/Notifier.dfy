/**
  The notifier: claims, bounded retries and the queue of deliveries.

  `Book` is the record of one process. It is not part of the program: it numbers the deliveries,
  and it keeps the store calls and the sends in the order in which they were made.
*/
module Notifier {
  import opened AlertEval
  import opened AlertRuns
  import opened Basics

  const MAX_ATTEMPTS := 5

  datatype Phase = Fire | Resolve

  function PhaseOf(a: Alert): Phase {
    if a.state == Resolved then Resolve else Fire
  }

  /** The identity of an episode, at the precision that the table keeps. */
  datatype DedupId = DedupId(key: string, start: Time)

  function Dedup(a: Alert): DedupId {
    DedupId(a.key, Trunc(a.startedAt))
  }

  datatype ClaimKey = ClaimKey(dedup: DedupId, channel: string, phase: Phase)

  /** `id` and `notice` number the delivery and the call of `Notify` that it comes from. */
  datatype Delivery = Delivery(id: nat, notice: nat, channel: string, phase: Phase, alert: Alert,
                               unclaimed: bool, attempts: nat, failedIn: nat)

  function ClaimOf(d: Delivery): ClaimKey {
    ClaimKey(Dedup(d.alert), d.channel, d.phase)
  }

  /** A claim that fails may have been written all the same. */
  datatype Reply = Won | Taken | Error(written: bool)

  datatype Event =
    | Claimed(id: nat, claim: ClaimKey, reply: Reply)
    | Sent(id: nat, claim: ClaimKey, notice: nat, ok: bool)

  datatype Trace = Begin | Next(prev: Trace, event: Event)

  // ---- what one process did for a delivery ----

  /** Failed claims plus sends. */
  function Attempts(t: Trace, id: nat): nat {
    if t.Begin? then 0
    else Attempts(t.prev, id) + if t.event.id == id && (t.event.Sent? || t.event.reply.Error?) then 1 else 0
  }

  predicate HasWon(t: Trace, id: nat, claim: ClaimKey) {
    t.Next? && ((t.event.Claimed? && t.event.id == id && t.event.claim == claim && t.event.reply == Won)
      || HasWon(t.prev, id, claim))
  }

  /** The claim row was there already, and this process did not make it. */
  predicate HasLost(t: Trace, id: nat) {
    t.Next? && ((t.event.Claimed? && t.event.id == id && t.event.reply == Taken) || HasLost(t.prev, id))
  }

  predicate HasSent(t: Trace, id: nat) {
    t.Next? && ((t.event.Sent? && t.event.id == id && t.event.ok) || HasSent(t.prev, id))
  }

  /**
    A delivery is sent only once its claim is won, never after it was accepted, and it has five attempts.
    Once its claim was taken by another, nothing more is done for it.
  */
  predicate LocalOk(t: Trace) {
    t.Next? ==>
      && LocalOk(t.prev)
      && Attempts(t.prev, t.event.id) < MAX_ATTEMPTS && !HasLost(t.prev, t.event.id)
      && (t.event.Sent? ==> HasWon(t.prev, t.event.id, t.event.claim) && !HasSent(t.prev, t.event.id))
      && (t.event.Claimed? ==> !HasWon(t.prev, t.event.id, t.event.claim))
  }

  /** No send of an alert in t belongs to a later call of `Notify` than n. */
  predicate NotAfter(t: Trace, key: string, n: nat) {
    t.Next? ==> NotAfter(t.prev, key, n) && (t.event.Sent? && t.event.claim.dedup.key == key ==> t.event.notice <= n)
  }

  /** The sends of one alert follow the order of its calls of `Notify`. */
  predicate Ordered(t: Trace) {
    t.Next? ==> Ordered(t.prev) && (t.event.Sent? ==> NotAfter(t.prev, t.event.claim.dedup.key, t.event.notice))
  }

  predicate IdsBelow(t: Trace, n: nat) {
    t.Next? ==> IdsBelow(t.prev, n) && t.event.id < n
  }

  /** Since `base`, claims were asked and messages sent for the given claims only. */
  predicate Within(t: Trace, base: Trace, claims: set<ClaimKey>) {
    t == base || (t.Next? && t.event.claim in claims && Within(t.prev, base, claims))
  }

  lemma {:induction false} NotAfterGrows(t: Trace, key: string, m: nat, n: nat)
    requires NotAfter(t, key, m) && m <= n
    ensures NotAfter(t, key, n)
  {
    if t.Next? { NotAfterGrows(t.prev, key, m, n); }
  }

  lemma {:induction false} UnknownId(t: Trace, n: nat, claim: ClaimKey)
    requires IdsBelow(t, n)
    ensures IdsBelow(t, n + 1) && Attempts(t, n) == 0 && !HasWon(t, n, claim) && !HasSent(t, n) && !HasLost(t, n)
  {
    if t.Next? { UnknownId(t.prev, n, claim); }
  }

  // ---- the book of one process ----

  datatype Fate = Queued | ClaimLost | Delivered | Exhausted | GivenUp | Superseded

  datatype Entry = Entry(claim: ClaimKey, notice: nat, fate: Fate)

  datatype Book = Book(trace: Trace, entries: seq<Entry>, latest: map<string, nat>, notices: nat, given: set<nat>)

  function Latest(b: Book, key: string): nat {
    if key in b.latest then b.latest[key] else 0
  }

  /** Where a delivery ended says what was done for it. */
  ghost predicate EntryOk(b: Book, id: nat)
    requires id < |b.entries|
  {
    var e := b.entries[id];
    && (e.fate == Delivered <==> HasSent(b.trace, id))
    && (e.fate in {ClaimLost, GivenUp} ==> !HasWon(b.trace, id, e.claim))
    && (e.fate == ClaimLost ==> HasLost(b.trace, id))
    && (e.fate in {Delivered, Exhausted, Superseded} ==> !HasLost(b.trace, id))
    && (e.fate == GivenUp ==> HasLost(b.trace, id) || Attempts(b.trace, id) == MAX_ATTEMPTS)
    && (e.fate == Exhausted ==> HasWon(b.trace, id, e.claim) && Attempts(b.trace, id) == MAX_ATTEMPTS)
    && (e.fate == GivenUp <==> id in b.given)
    && Attempts(b.trace, id) <= MAX_ATTEMPTS
  }

  /** An open delivery is on the book as it is in memory, and comes from the latest notice of its alert. */
  ghost predicate OpenOk(b: Book, d: Delivery, won: bool) {
    && d.id < |b.entries| && b.entries[d.id] == Entry(ClaimOf(d), d.notice, Queued)
    && d.phase == PhaseOf(d.alert) && d.notice == Latest(b, d.alert.key)
    && Attempts(b.trace, d.id) == d.attempts
    && (HasWon(b.trace, d.id, ClaimOf(d)) <==> won)
  }

  ghost predicate QueuedOk(b: Book, d: Delivery) {
    OpenOk(b, d, !d.unclaimed) && d.attempts < MAX_ATTEMPTS && !HasLost(b.trace, d.id)
  }

  ghost predicate DistinctIds(xs: seq<Delivery>) {
    forall i, j :: 0 <= i < j < |xs| ==> xs[i].id != xs[j].id
  }

  /** The queue holds the open deliveries of the book, each once; `held` is the one in hand, if any. */
  ghost predicate QueueInv(xs: seq<Delivery>, b: Book, held: set<nat>) {
    && DistinctIds(xs)
    && (forall i :: 0 <= i < |xs| ==> QueuedOk(b, xs[i]) && xs[i].id !in held)
    && (forall id :: 0 <= id < |b.entries| && b.entries[id].fate == Queued ==> id in held || IsQueued(xs, id))
  }

  ghost predicate IsQueued(xs: seq<Delivery>, id: nat) {
    exists i :: 0 <= i < |xs| && xs[i].id == id
  }

  ghost predicate BookInv(b: Book) {
    && (forall id :: 0 <= id < |b.entries| ==> EntryOk(b, id))
    && (forall id :: id in b.given ==> id < |b.entries|)
    && LocalOk(b.trace) && Ordered(b.trace) && IdsBelow(b.trace, |b.entries|)
    && (forall k :: NotAfter(b.trace, k, Latest(b, k)) && Latest(b, k) <= b.notices)
  }

  ghost predicate Inv(xs: seq<Delivery>, b: Book, held: set<nat>) {
    QueueInv(xs, b, held) && BookInv(b)
  }

  lemma EmptyBook()
    ensures Inv([], Book(Begin, [], map[], 0, {}), {})
  {}

  lemma SpliceIds(p: seq<Delivery>, d: Delivery, q: seq<Delivery>, id: nat)
    ensures IsQueued(p + [d] + q, id) <==> d.id == id || IsQueued(p + q, id)
    ensures DistinctIds(p + [d] + q) <==> DistinctIds(p + q) && !IsQueued(p + q, d.id)
  {
    var xs, ys := p + q, p + [d] + q;
    assert Spliced(xs, ys, |p|, d);
    SplicedQueued(xs, ys, |p|, d, id);
    SplicedQueued(xs, ys, |p|, d, d.id);
    SplicedDistinct(xs, ys, |p|, d);
  }

  /** ys is xs with d put in at n. */
  ghost predicate Spliced(xs: seq<Delivery>, ys: seq<Delivery>, n: nat, d: Delivery) {
    && n <= |xs| && |ys| == |xs| + 1 && ys[n] == d
    && (forall i :: 0 <= i < n ==> ys[i] == xs[i]) && (forall i :: n < i < |ys| ==> ys[i] == xs[i - 1])
  }

  lemma SplicedQueued(xs: seq<Delivery>, ys: seq<Delivery>, n: nat, d: Delivery, id: nat)
    requires Spliced(xs, ys, n, d)
    ensures IsQueued(ys, id) <==> d.id == id || IsQueued(xs, id)
  {
    if IsQueued(xs, id) {
      var i :| 0 <= i < |xs| && xs[i].id == id;
      assert ys[if i < n then i else i + 1] == xs[i];
    }
  }

  lemma SplicedDistinct(xs: seq<Delivery>, ys: seq<Delivery>, n: nat, d: Delivery)
    requires Spliced(xs, ys, n, d)
    ensures DistinctIds(ys) <==> DistinctIds(xs) && !IsQueued(xs, d.id)
  {
    if DistinctIds(ys) {
      forall i, j | 0 <= i < j < |xs| ensures xs[i].id != xs[j].id {
        assert ys[if i < n then i else i + 1] == xs[i] && ys[if j < n then j else j + 1] == xs[j];
      }
      forall i | 0 <= i < |xs| ensures xs[i].id != d.id {
        assert ys[if i < n then i else i + 1] == xs[i];
      }
    } else {
      var i, j :| 0 <= i < j < |ys| && ys[i].id == ys[j].id;
      assert i == n || ys[i] == xs[if i < n then i else i - 1];
      assert j == n || ys[j] == xs[if j < n then j else j - 1];
    }
  }

  lemma Insert(p: seq<Delivery>, d: Delivery, q: seq<Delivery>, b: Book)
    requires QueueInv(p + q, b, {d.id}) && QueuedOk(b, d)
    ensures QueueInv(p + [d] + q, b, {})
  {
    var xs, ys := p + q, p + [d] + q;
    assert !IsQueued(xs, d.id);
    SpliceIds(p, d, q, d.id);
    forall id: nat ensures IsQueued(ys, id) <==> d.id == id || IsQueued(xs, id) { SpliceIds(p, d, q, id); }
    forall i | 0 <= i < |ys| ensures QueuedOk(b, ys[i]) {
      assert ys[i] == if i < |p| then xs[i] else if i == |p| then d else xs[i - 1];
    }
  }

  lemma Remove(p: seq<Delivery>, d: Delivery, q: seq<Delivery>, b: Book)
    requires QueueInv(p + [d] + q, b, {})
    ensures QueueInv(p + q, b, {d.id}) && QueuedOk(b, d)
  {
    var xs, ys := p + q, p + [d] + q;
    assert ys[|p|] == d;
    SpliceIds(p, d, q, d.id);
    forall id: nat ensures IsQueued(ys, id) <==> d.id == id || IsQueued(xs, id) { SpliceIds(p, d, q, id); }
    forall i | 0 <= i < |xs| ensures QueuedOk(b, xs[i]) && xs[i].id != d.id {
      assert xs[i] == ys[if i < |p| then i else i + 1];
      assert IsQueued(xs, xs[i].id);
    }
  }

  function WithFate(b: Book, id: nat, f: Fate): Book
    requires id < |b.entries|
  {
    b.(entries := b.entries[id := b.entries[id].(fate := f)], given := if f == GivenUp then b.given + {id} else b.given)
  }

  /** A delivery in hand is given a final place without a call. */
  lemma Dispose(xs: seq<Delivery>, b: Book, d: Delivery, won: bool, f: Fate)
    requires Inv(xs, b, {d.id}) && OpenOk(b, d, won)
    requires f in {ClaimLost, GivenUp} ==>
      !won && (HasLost(b.trace, d.id) || (f == GivenUp && d.attempts == MAX_ATTEMPTS))
    requires f == Exhausted ==> won && d.attempts == MAX_ATTEMPTS
    requires f in {Exhausted, Superseded} ==> !HasLost(b.trace, d.id)
    requires f != Delivered && f != Queued
    ensures Inv(xs, WithFate(b, d.id, f), {})
  {
    var b' := WithFate(b, d.id, f);
    assert forall k :: Latest(b', k) == Latest(b, k);
    forall i | 0 <= i < |xs| ensures QueuedOk(b', xs[i]) { assert QueuedOk(b, xs[i]); }
    forall id | 0 <= id < |b'.entries| ensures EntryOk(b', id) { assert EntryOk(b, id); }
  }

  function WithEvent(b: Book, e: Event): Book {
    b.(trace := Next(b.trace, e))
  }

  predicate EventFits(b: Book, d: Delivery, won: bool, e: Event) {
    && e.id == d.id && e.claim == ClaimOf(d) && d.attempts < MAX_ATTEMPTS && !HasLost(b.trace, d.id)
    && (e.Sent? ==> won && e.notice == d.notice)
    && (e.Claimed? ==> !won)
  }

  /** A call made for the delivery in hand. An accepted send closes it. */
  lemma Advance(xs: seq<Delivery>, b: Book, d: Delivery, won: bool, e: Event)
    requires Inv(xs, b, {d.id}) && OpenOk(b, d, won) && EventFits(b, d, won, e)
    ensures e.Sent? && e.ok ==> Inv(xs, WithFate(WithEvent(b, e), d.id, Delivered), {})
    ensures !(e.Sent? && e.ok) ==> Inv(xs, WithEvent(b, e), {d.id})
    ensures !(e.Sent? && e.ok) ==>
      OpenOk(WithEvent(b, e), d.(attempts := Attempts(Next(b.trace, e), d.id)),
             if e.Claimed? then e.reply == Won else won)
    ensures HasLost(Next(b.trace, e), d.id) <==> e.Claimed? && e.reply == Taken
  {
    var b' := WithEvent(b, e);
    var c := if e.Sent? && e.ok then WithFate(b', d.id, Delivered) else b';
    assert EntryOk(b, d.id);
    forall i | 0 <= i < |xs| ensures QueuedOk(c, xs[i]) { assert QueuedOk(b, xs[i]); }
    forall id | 0 <= id < |c.entries| ensures EntryOk(c, id) { assert EntryOk(b, id); }
    assert NotAfter(b.trace, e.claim.dedup.key, Latest(b, e.claim.dedup.key));
    forall k ensures NotAfter(c.trace, k, Latest(c, k)) && Latest(c, k) <= c.notices {
      assert NotAfter(b.trace, k, Latest(b, k));
    }
  }

  function WithNotice(b: Book, key: string): Book {
    b.(latest := b.latest[key := b.notices + 1], notices := b.notices + 1)
  }

  /** A new notice of an alert with nothing left in the queue. */
  lemma NewNotice(xs: seq<Delivery>, b: Book, key: string)
    requires Inv(xs, b, {}) && forall i :: 0 <= i < |xs| ==> xs[i].alert.key != key
    ensures Inv(xs, WithNotice(b, key), {})
  {
    var b' := WithNotice(b, key);
    forall i | 0 <= i < |xs| ensures QueuedOk(b', xs[i]) { assert QueuedOk(b, xs[i]); }
    forall id | 0 <= id < |b'.entries| ensures EntryOk(b', id) { assert EntryOk(b, id); }
    forall k ensures NotAfter(b'.trace, k, Latest(b', k)) && Latest(b', k) <= b'.notices {
      assert NotAfter(b.trace, k, Latest(b, k));
      NotAfterGrows(b.trace, k, Latest(b, k), Latest(b', k));
    }
  }

  function WithEntry(b: Book, d: Delivery): Book {
    b.(entries := b.entries + [Entry(ClaimOf(d), d.notice, Queued)])
  }

  /** A delivery that was just made is in hand, unclaimed on the record. */
  lemma NewEntry(xs: seq<Delivery>, b: Book, d: Delivery)
    requires Inv(xs, b, {}) && d.id == |b.entries| && d.phase == PhaseOf(d.alert)
    requires d.notice == Latest(b, d.alert.key) && d.attempts == 0
    ensures Inv(xs, WithEntry(b, d), {d.id}) && OpenOk(WithEntry(b, d), d, false) && !HasLost(b.trace, d.id)
  {
    var b' := WithEntry(b, d);
    UnknownId(b.trace, d.id, ClaimOf(d));
    forall i | 0 <= i < |xs| ensures QueuedOk(b', xs[i]) && xs[i].id != d.id { assert QueuedOk(b, xs[i]); }
    forall id | 0 <= id < |b.entries| ensures EntryOk(b', id) { assert EntryOk(b, id); }
    assert EntryOk(b', d.id);
    assert forall k :: Latest(b', k) == Latest(b, k);
  }

  // ---- every delivery is accounted for ----

  /** How many of the first n deliveries have the fate f. */
  function Count(b: Book, n: nat, f: Fate): nat
    requires n <= |b.entries|
  {
    if n == 0 then 0 else Count(b, n - 1, f) + if b.entries[n - 1].fate == f then 1 else 0
  }

  lemma {:induction false} CountSet(b: Book, n: nat, f: Fate, ids: set<nat>)
    requires n <= |b.entries| && forall id: nat :: id in ids <==> id < n && b.entries[id].fate == f
    ensures |ids| == Count(b, n, f)
  {
    if n > 0 {
      var last: nat := n - 1;
      var front := ids - {last};
      CountSet(b, last, f, front);
      assert last in ids ==> ids == front + {last};
      assert last !in ids ==> ids == front;
    } else {
      assert ids == {};
    }
  }

  lemma {:induction false} CountAll(b: Book, n: nat)
    requires n <= |b.entries|
    ensures n == Count(b, n, Queued) + Count(b, n, ClaimLost) + Count(b, n, Delivered)
                 + Count(b, n, Exhausted) + Count(b, n, GivenUp) + Count(b, n, Superseded)
  {
    if n > 0 { CountAll(b, n - 1); }
  }

  lemma {:induction false} IdsOfQueue(xs: seq<Delivery>) returns (ids: set<nat>)
    requires DistinctIds(xs)
    ensures |ids| == |xs| && forall id: nat :: id in ids <==> IsQueued(xs, id)
  {
    if xs == [] {
      ids := {};
    } else {
      var front, last := xs[..|xs| - 1], xs[|xs| - 1];
      var ids0 := IdsOfQueue(front);
      ids := ids0 + {last.id};
      SplicedQueuedAtEnd(front, last);
      assert xs == front + [last];
    }
  }

  lemma SplicedQueuedAtEnd(front: seq<Delivery>, d: Delivery)
    ensures forall id: nat :: IsQueued(front + [d], id) <==> d.id == id || IsQueued(front, id)
  {
    forall id: nat ensures IsQueued(front + [d], id) <==> d.id == id || IsQueued(front, id) {
      SplicedQueued(front, front + [d], |front|, d, id);
    }
  }

  /**
    Each delivery that was ever made is queued, lost to another claim, delivered, exhausted, given up
    and counted, or superseded, and it is exactly one of these.
  */
  lemma DeliveriesAccounted(xs: seq<Delivery>, b: Book)
    requires Inv(xs, b, {})
    ensures |b.entries| == |xs| + Count(b, |b.entries|, ClaimLost) + Count(b, |b.entries|, Delivered)
                           + Count(b, |b.entries|, Exhausted) + |b.given| + Count(b, |b.entries|, Superseded)
    ensures forall id: nat :: id < |b.entries| ==> (IsQueued(xs, id) <==> b.entries[id].fate == Queued)
  {
    var n := |b.entries|;
    CountAll(b, n);
    var ids := IdsOfQueue(xs);
    CountSet(b, n, Queued, ids);
    forall id: nat ensures id in b.given <==> id < n && b.entries[id].fate == GivenUp {
      assert id < n ==> EntryOk(b, id);
    }
    CountSet(b, n, GivenUp, b.given);
  }

  // ---- the notifier ----

  function Filter(xs: seq<Delivery>, keep: Delivery -> bool): seq<Delivery> {
    if xs == [] then []
    else Filter(xs[..|xs| - 1], keep) + if keep(xs[|xs| - 1]) then [xs[|xs| - 1]] else []
  }

  lemma {:induction false} FilterMembers(xs: seq<Delivery>, keep: Delivery -> bool)
    ensures forall d :: d in Filter(xs, keep) <==> d in xs && keep(d)
  {
    if xs != [] {
      FilterMembers(xs[..|xs| - 1], keep);
      assert xs == xs[..|xs| - 1] + [xs[|xs| - 1]];
    }
  }

  function OtherThan(key: string): Delivery -> bool {
    (d: Delivery) => d.alert.key != key
  }

  function StillOwed(firing: seq<Alert>): Delivery -> bool {
    (d: Delivery) => !Obsolete(d, firing)
  }

  lemma OthersOnly(xs: seq<Delivery>, key: string)
    ensures forall i :: 0 <= i < |Filter(xs, OtherThan(key))| ==> Filter(xs, OtherThan(key))[i].alert.key != key
  {
    FilterMembers(xs, OtherThan(key));
    forall i | 0 <= i < |Filter(xs, OtherThan(key))| ensures Filter(xs, OtherThan(key))[i].alert.key != key {
      assert Filter(xs, OtherThan(key))[i] in Filter(xs, OtherThan(key));
    }
  }

  /** A firing episode of the same alert that started later, or no episode that owes this FIRING. */
  predicate Obsolete(d: Delivery, firing: seq<Alert>) {
    || (exists a :: a in firing && a.key == d.alert.key && Trunc(a.startedAt) > Trunc(d.alert.startedAt))
    || (d.phase == Fire && !exists a :: a in firing && Dedup(a) == Dedup(d.alert))
  }

  /** One cycle of the engine: its deadline, and the calls to the store and the channels made within it. */
  class Cycle {
    var ended: bool

    constructor ()
      ensures !ended
    {
      ended := false;
    }

    /** Time goes by: the deadline may pass, and then the cycle has ended for good. */
    method Pass()
      modifies this
      ensures old(ended) ==> ended
    {
      if * {
        ended := true;
      }
    }

    method AskClaim() returns (reply: Reply)
      modifies this
      ensures old(ended) ==> ended
    {
      if * {
        reply := Won;
      } else if * {
        reply := Taken;
      } else if * {
        reply := Error(true);
      } else {
        reply := Error(false);
      }
      Pass();
    }

    method Send() returns (ok: bool)
      modifies this
      ensures old(ended) ==> ended
    {
      ok := true;
      if * {
        ok := false;
      }
      Pass();
    }
  }

  class ChannelNotifier {
    const channels: seq<string>
    var passes: nat
    var pending: seq<Delivery>
    var undelivered: nat
    /** How many deliveries were made, and how many notices were given. */
    var made: nat
    var notices: nat
    ghost var book: Book
    /** The deliveries of the current `Retry` that are still to be made. */
    ghost var rest: seq<Delivery>

    ghost predicate Valid(held: set<nat>)
      reads this
    {
      && Inv(pending + rest, book, held)
      && undelivered == |book.given| && made == |book.entries| && notices == book.notices
    }

    constructor (channels: seq<string>)
      ensures this.channels == channels && pending == [] && passes == 0 && undelivered == 0
      ensures rest == [] && book == Book(Begin, [], map[], 0, {}) && Valid({})
    {
      this.channels := channels;
      passes, pending, undelivered, made, notices := 0, [], 0, 0, 0;
      rest, book := [], Book(Begin, [], map[], 0, {});
      EmptyBook();
    }

    /** Asks for the claim row of d. A cycle that has ended makes no call. */
    method Claim(d: Delivery, cycle: Cycle, ghost base: Trace, ghost claims: set<ClaimKey>)
      returns (d': Delivery, won: bool, failed: bool)
      requires Valid({d.id}) && OpenOk(book, d, false) && d.attempts < MAX_ATTEMPTS && !HasLost(book.trace, d.id)
      requires Within(book.trace, base, claims) && ClaimOf(d) in claims
      modifies this`book, cycle
      ensures Valid({d.id}) && OpenOk(book, d', won) && Within(book.trace, base, claims)
      ensures d' == d.(attempts := d'.attempts) && (won ==> !failed) && (!failed ==> d' == d)
      ensures HasLost(book.trace, d.id) <==> !won && !failed
      ensures book == old(book).(trace := book.trace) && (old(cycle.ended) ==> cycle.ended)
      ensures if old(cycle.ended) then failed && d' == d && book == old(book)
              else ClaimMade(book.trace, old(book.trace), d, won, failed)
                   && d'.attempts == d.attempts + if failed then 1 else 0
    {
      if cycle.ended {
        return d, false, true;
      }
      var reply := cycle.AskClaim();
      ghost var e := Claimed(d.id, ClaimOf(d), reply);
      Advance(pending + rest, book, d, false, e);
      book := WithEvent(book, e);
      if reply.Error? {
        return d.(attempts := d.attempts + 1), false, true;
      }
      return d, reply == Won, false;
    }

    /** Queues a delivery for the next pass while it has attempts left. */
    method Keep(d: Delivery)
      requires Valid({d.id}) && OpenOk(book, d, !d.unclaimed) && (d.unclaimed ==> d.attempts < MAX_ATTEMPTS)
      requires !HasLost(book.trace, d.id)
      modifies this`pending, this`book
      ensures Valid({}) && book.trace == old(book.trace)
      ensures pending == old(pending) + if d.attempts < MAX_ATTEMPTS then [d.(failedIn := passes)] else []
      ensures book == if d.attempts < MAX_ATTEMPTS then old(book) else WithFate(old(book), d.id, Exhausted)
    {
      if d.attempts >= MAX_ATTEMPTS {
        assert EntryOk(book, d.id);
        Dispose(pending + rest, book, d, true, Exhausted);
        book := WithFate(book, d.id, Exhausted);
        return;
      }
      Insert(pending, d.(failedIn := passes), rest, book);
      pending := pending + [d.(failedIn := passes)];
    }

    method GiveUp(d: Delivery)
      requires Valid({d.id}) && OpenOk(book, d, false) && (HasLost(book.trace, d.id) || d.attempts == MAX_ATTEMPTS)
      modifies this`undelivered, this`book
      ensures Valid({}) && undelivered == old(undelivered) + 1 && book == WithFate(old(book), d.id, GivenUp)
    {
      assert d.id !in book.given by { assert EntryOk(book, d.id); }
      Dispose(pending + rest, book, d, false, GivenUp);
      book := WithFate(book, d.id, GivenUp);
      undelivered := undelivered + 1;
    }

    method KeepUnclaimed(d: Delivery)
      requires Valid({d.id}) && OpenOk(book, d, false) && d.unclaimed && !HasLost(book.trace, d.id)
      modifies this`pending, this`undelivered, this`book
      ensures Valid({}) && book.trace == old(book.trace)
      ensures if d.attempts < MAX_ATTEMPTS
              then pending == old(pending) + [d.(failedIn := passes)] && undelivered == old(undelivered)
              else pending == old(pending) && undelivered == old(undelivered) + 1
      ensures book == if d.attempts < MAX_ATTEMPTS then old(book) else WithFate(old(book), d.id, GivenUp)
    {
      if d.attempts < MAX_ATTEMPTS {
        Keep(d);
        return;
      }
      assert EntryOk(book, d.id);
      GiveUp(d);
    }

    /** One attempt at a claimed delivery. */
    method Deliver(d: Delivery, cycle: Cycle, ghost base: Trace, ghost claims: set<ClaimKey>)
      requires Valid({d.id}) && OpenOk(book, d, true) && d.attempts < MAX_ATTEMPTS && !d.unclaimed
      requires !HasLost(book.trace, d.id) && d.id < |book.entries|
      requires Within(book.trace, base, claims) && ClaimOf(d) in claims
      modifies this`pending, this`book, cycle
      ensures Valid({}) && Within(book.trace, base, claims) && (old(cycle.ended) ==> cycle.ended)
      ensures MayRequeue(old(pending), pending, d, passes) && SameBut(old(book), book, d.id)
      ensures book.given == old(book.given)
      ensures if old(cycle.ended) then book.trace == old(book.trace) && Kept(old(pending), pending, d, passes, book)
              else SendMade(book.trace, old(book.trace), d) && SentFate(old(pending), pending, d, passes, book)
    {
      hide Inv;
      // The cycle ended before the send began, so the attempt is not counted.
      if cycle.ended {
        Keep(d);
        return;
      }
      var ok := cycle.Send();
      ghost var e := Sent(d.id, ClaimOf(d), d.notice, ok);
      Advance(pending + rest, book, d, true, e);
      if ok {
        book := WithFate(WithEvent(book, e), d.id, Delivered);
        return;
      }
      book := WithEvent(book, e);
      Keep(d.(attempts := d.attempts + 1));
    }

    /** Removes the queued deliveries that `keep` does not select. They are obsolete, so nothing is reported. */
    method DropPending(keep: Delivery -> bool)
      requires Valid({}) && rest == []
      modifies this`pending, this`book
      ensures Valid({}) && pending == Filter(old(pending), keep) && book == Superseding(old(book), old(pending), keep)
    {
      var queue, kept: seq<Delivery> := pending, [];
      for i := 0 to |queue|
        invariant pending == queue && kept == Filter(queue[..i], keep)
      {
        assert queue[..i + 1][..i] == queue[..i];
        if keep(queue[i]) {
          kept := kept + [queue[i]];
        }
      }
      assert queue[..|queue|] == queue;
      DropInv(queue, rest, keep, book);
      pending := kept;
      book := Superseding(book, queue, keep);
    }

    /** Drops what is queued for the alert, then makes one delivery per channel. */
    method Notify(a: Alert, cycle: Cycle)
      requires Valid({}) && rest == []
      modifies this, cycle
      ensures Valid({}) && rest == [] && passes == old(passes)
      ensures book.latest == old(book.latest)[a.key := old(book.notices) + 1] && book.notices == old(book.notices) + 1
      ensures NoticeMade(book, |old(book.entries)|, a, channels)
      ensures AddedFor(pending, Filter(old(pending), OtherThan(a.key)), a, passes)
      ensures Within(book.trace, old(book.trace), NoticeClaims(a, channels))
      ensures NoneSuperseded(Superseding(old(book), old(pending), OtherThan(a.key)), book)
      ensures book.given == old(book.given) && undelivered == old(undelivered)
      ensures NoticeFates(book, |old(book.entries)|) && (old(cycle.ended) ==> cycle.ended)
      ensures AllAsked(book, old(book.trace), |old(book.entries)|, cycle.ended)
    {
      var phase := if a.state == Resolved then Resolve else Fire;
      BeginNotice(a.key);
      NotifyChannels(a, phase, cycle);
    }

    /** Clears the queue of an alert and counts a new notice of it. */
    method BeginNotice(key: string)
      requires Valid({}) && rest == []
      modifies this`pending, this`book, this`notices
      ensures Valid({}) && pending == Filter(old(pending), OtherThan(key))
      ensures book.latest == old(book.latest)[key := old(book.notices) + 1] && book.notices == old(book.notices) + 1
      ensures book.entries == Superseding(old(book), old(pending), OtherThan(key)).entries
      ensures book.trace == old(book.trace) && book.given == old(book.given)
    {
      DropPending(OtherThan(key));
      CountNotice(key, old(pending));
    }

    method CountNotice(key: string, ghost before: seq<Delivery>)
      requires Valid({}) && rest == [] && pending == Filter(before, OtherThan(key))
      modifies this`book, this`notices
      ensures Valid({}) && book == WithNotice(old(book), key)
    {
      OthersOnly(before, key);
      NewNotice(pending + rest, book, key);
      book := WithNotice(book, key);
      notices := notices + 1;
    }

    method NotifyChannels(a: Alert, phase: Phase, cycle: Cycle)
      requires Valid({}) && rest == [] && phase == PhaseOf(a) && Latest(book, a.key) == book.notices
      modifies this`pending, this`undelivered, this`book, this`made, cycle
      ensures Valid({}) && book.latest == old(book.latest) && book.notices == old(book.notices)
      ensures NoticeMade(book, |old(book.entries)|, a, channels)
      ensures AddedFor(pending, old(pending), a, passes) && NoneSuperseded(old(book), book)
      ensures Within(book.trace, old(book.trace), NoticeClaims(a, channels))
      ensures book.given == old(book.given) && NoticeFates(book, |old(book.entries)|)
      ensures (old(cycle.ended) ==> cycle.ended) && AllAsked(book, old(book.trace), |old(book.entries)|, cycle.ended)
    {
      hide Inv;
      for i := 0 to |channels|
        invariant Valid({}) && book.latest == old(book.latest) && book.notices == old(book.notices)
        invariant NoticeMade(book, |old(book.entries)|, a, channels[..i])
        invariant AddedFor(pending, old(pending), a, passes) && NoneSuperseded(old(book), book)
        invariant Within(book.trace, old(book.trace), NoticeClaims(a, channels))
        invariant book.given == old(book.given) && NoticeFates(book, |old(book.entries)|)
        invariant old(cycle.ended) ==> cycle.ended
        invariant AllAsked(book, old(book.trace), |old(book.entries)|, cycle.ended)
      {
        assert channels[i] in channels;
        ghost var before := book;
        NotifyChannel(channels[i], a, phase, cycle, old(book.trace), NoticeClaims(a, channels));
        OneMoreAsked(before, book, old(book.trace), |old(book.entries)|, NoticeClaims(a, channels), cycle.ended);
        OneMoreMade(before, book, |old(book.entries)|, a, channels, i);
      }
      assert channels[..|channels|] == channels;
    }

    method NotifyChannel(channel: string, a: Alert, phase: Phase, cycle: Cycle,
                         ghost base: Trace, ghost claims: set<ClaimKey>)
      requires Valid({}) && rest == [] && phase == PhaseOf(a) && Latest(book, a.key) == book.notices
      requires Within(book.trace, base, claims) && ClaimKey(Dedup(a), channel, phase) in claims
      modifies this`pending, this`undelivered, this`book, this`made, cycle
      ensures Valid({}) && |book.entries| == |old(book.entries)| + 1
      ensures book.latest == old(book.latest) && book.notices == old(book.notices)
      ensures book.entries[..|old(book.entries)|] == old(book.entries)
      ensures var e := book.entries[|old(book.entries)|];
              e.claim == ClaimKey(Dedup(a), channel, phase) && e.notice == book.notices
      ensures AddedFor(pending, old(pending), a, passes) && NoneSuperseded(old(book), book)
      ensures Within(book.trace, base, claims) && book.given == old(book.given)
      ensures book.entries[|old(book.entries)|].fate in {Queued, Delivered, ClaimLost}
      ensures old(cycle.ended) ==> cycle.ended
      ensures OneTurn(book.trace, old(book.trace), |old(book.entries)|)
      ensures !old(cycle.ended) ==> book.trace != old(book.trace)
    {
      hide Inv, OpenOk;
      var d := NewDelivery(channel, a, phase);
      FirstAttempt(d, cycle, base, claims);
    }

    /** Claims a new delivery, and sends it if this process won the claim. */
    method FirstAttempt(d: Delivery, cycle: Cycle, ghost base: Trace, ghost claims: set<ClaimKey>)
      requires Valid({d.id}) && rest == [] && OpenOk(book, d, false) && d.attempts == 0 && !d.unclaimed
      requires !HasLost(book.trace, d.id) && d.id < |book.entries|
      requires d.phase == PhaseOf(d.alert) && Within(book.trace, base, claims) && ClaimOf(d) in claims
      modifies this`pending, this`undelivered, this`book, cycle
      ensures Valid({}) && Within(book.trace, base, claims)
      ensures old(cycle.ended) ==> cycle.ended
      ensures OneTurn(book.trace, old(book.trace), d.id) && (!old(cycle.ended) ==> book.trace != old(book.trace))
      ensures AddedFor(pending, old(pending), d.alert, passes) && SameBut(old(book), book, d.id)
      ensures book.given == old(book.given) && book.entries[d.id].fate in {Queued, Delivered, ClaimLost}
    {
      hide Inv, OpenOk, MayRequeue, HasLost, HasWon, HasSent, Attempts, Within;
      var claimed, won, failed := Claim(d, cycle, base, claims);
      if failed {
        OpenUnclaimed(book, claimed);
        KeepUnclaimed(claimed.(unclaimed := true));
      } else if !won {
        LoseClaim(d);
      } else {
        Deliver(d, cycle, base, claims);
        RequeueAdds(old(pending), pending, d, passes);
      }
    }

    method NewDelivery(channel: string, a: Alert, phase: Phase) returns (d: Delivery)
      requires Valid({}) && rest == [] && phase == PhaseOf(a) && Latest(book, a.key) == book.notices
      modifies this`book, this`made
      ensures d == Delivery(|old(book.entries)|, book.notices, channel, phase, a, false, 0, 0)
      ensures Valid({d.id}) && OpenOk(book, d, false) && book == WithEntry(old(book), d)
      ensures !HasLost(book.trace, d.id)
    {
      d := Delivery(made, notices, channel, phase, a, false, 0, 0);
      NewEntry(pending + rest, book, d);
      book := WithEntry(book, d);
      made := made + 1;
    }

    ghost method LoseClaim(d: Delivery)
      requires Valid({d.id}) && OpenOk(book, d, false) && HasLost(book.trace, d.id)
      modifies this`book
      ensures Valid({}) && book == WithFate(old(book), d.id, ClaimLost)
    {
      Dispose(pending + rest, book, d, false, ClaimLost);
      book := WithFate(book, d.id, ClaimLost);
    }

    /** Drops the queued deliveries that their alerts have moved past. */
    method Settle(firing: seq<Alert>)
      requires Valid({}) && rest == []
      modifies this`pending, this`book
      ensures Valid({}) && pending == Filter(old(pending), StillOwed(firing))
      ensures book == Superseding(old(book), old(pending), StillOwed(firing))
      ensures forall d :: d in pending <==>
        && d in old(pending)
        && (forall a :: a in firing && a.key == d.alert.key ==> Trunc(a.startedAt) <= Trunc(d.alert.startedAt))
        && (d.phase == Fire ==>
              exists a :: a in firing && a.key == d.alert.key && Trunc(a.startedAt) == Trunc(d.alert.startedAt))
    {
      FilterMembers(pending, StillOwed(firing));
      if |pending| == 0 {
        return;
      }
      DropPending(StillOwed(firing));
    }

    /** Takes the first of the deliveries still to be made in hand. */
    ghost method TakeHead(d: Delivery, tail: seq<Delivery>)
      requires Valid({}) && rest == [d] + tail
      modifies this`rest
      ensures rest == tail && Valid({d.id}) && QueuedOk(book, d) && IsOpen(book, d.id)
    {
      assert pending + rest == pending + [d] + tail;
      Remove(pending, d, tail, book);
      assert EntryOk(book, d.id);
      rest := tail;
    }

    /** Makes again one delivery that failed on an earlier pass. */
    method RetryOne(d: Delivery, cycle: Cycle, ghost tail: seq<Delivery>, ghost base: Trace,
                    ghost claims: set<ClaimKey>)
      requires Valid({}) && rest == [d] + tail && Within(book.trace, base, claims) && ClaimOf(d) in claims
      modifies this, cycle
      ensures old(cycle.ended) ==> cycle.ended
      ensures OneTurn(book.trace, old(book.trace), d.id) && (!old(cycle.ended) ==> book.trace != old(book.trace))
      ensures Valid({}) && rest == tail && Within(book.trace, base, claims) && passes == old(passes)
      ensures MayRequeue(old(pending), pending, d, passes) && SameBut(old(book), book, d.id)
      ensures IsOpen(old(book), d.id) && RetryFate(old(book), book, d.id)
    {
      hide Inv, OpenOk, MayRequeue, SameBut;
      TakeHead(d, tail);
      if !d.unclaimed {
        Deliver(d, cycle, base, claims);
      } else {
        ClaimAgain(d, cycle, base, claims);
      }
    }

    /** Claims a delivery whose claim failed before. A claim that is on record already is given up. */
    method ClaimAgain(d: Delivery, cycle: Cycle, ghost base: Trace, ghost claims: set<ClaimKey>)
      requires Valid({d.id}) && OpenOk(book, d, false) && d.unclaimed && d.attempts < MAX_ATTEMPTS
      requires !HasLost(book.trace, d.id) && IsOpen(book, d.id)
      requires Within(book.trace, base, claims) && ClaimOf(d) in claims
      modifies this`pending, this`undelivered, this`book, cycle
      ensures Valid({}) && Within(book.trace, base, claims)
      ensures old(cycle.ended) ==> cycle.ended
      ensures OneTurn(book.trace, old(book.trace), d.id) && (!old(cycle.ended) ==> book.trace != old(book.trace))
      ensures MayRequeue(old(pending), pending, d, passes) && SameBut(old(book), book, d.id)
      ensures RetryFate(old(book), book, d.id)
    {
      hide Inv, OpenOk, HasLost, HasWon, HasSent, Attempts, Within, MayRequeue, SameBut, RetryFate, Kept, SentFate;
      ghost var queue, before := pending, book;
      var claimed, won, failed := Claim(d, cycle, base, claims);
      ghost var asked := book;
      if failed {
        KeepUnclaimed(claimed);
        AgainKept(queue, pending, d, claimed, passes, before, asked, book);
      } else if !won {
        GiveUp(d);
        AgainKept(queue, pending, d, d.(attempts := MAX_ATTEMPTS), passes, before, asked, book);
      } else {
        OpenClaimed(book, d);
        Deliver(d.(unclaimed := false), cycle, base, claims);
        AgainDelivered(queue, pending, d, passes, before, asked, book);
      }
    }

    method RetryNext(due: seq<Delivery>, i: nat, cycle: Cycle, ghost before: Book, ghost kept: seq<Delivery>,
                     ghost claims: set<ClaimKey>)
      requires Valid({}) && i < |due| && rest == due[i..] && ClaimOf(due[i]) in claims && DistinctIds(due)
      requires Within(book.trace, before.trace, claims) && TurnsMade(book.trace, before.trace, due, i, cycle.ended)
      requires Requeued(kept, pending, passes, claims) && SameNotices(before, book) && NoneSuperseded(before, book)
      requires RetryFates(before, book)
      modifies this, cycle
      ensures Valid({}) && rest == due[i + 1..] && passes == old(passes) && (old(cycle.ended) ==> cycle.ended)
      ensures Within(book.trace, before.trace, claims) && TurnsMade(book.trace, before.trace, due, i + 1, cycle.ended)
      ensures Requeued(kept, pending, passes, claims) && SameNotices(before, book) && NoneSuperseded(before, book)
      ensures RetryFates(before, book)
    {
      hide Inv;
      ghost var mid := book;
      assert due[i..] == [due[i]] + due[i + 1..];
      RetryOne(due[i], cycle, due[i + 1..], before.trace, claims);
      RetryFatesStep(before, mid, book, due[i].id);
      OneMoreTurn(mid.trace, book.trace, before.trace, due, i, claims, cycle.ended);
    }

    /** Takes the deliveries that failed before this pass out of the queue. */
    method TakeDue() returns (due: seq<Delivery>)
      requires Valid({}) && rest == []
      modifies this`pending, this`rest
      ensures Valid({}) && rest == due && DistinctIds(due)
      ensures pending == Filter(old(pending), Waits(passes)) && due == Filter(old(pending), Due(passes))
    {
      var queue, kept: seq<Delivery> := pending, [];
      due := [];
      for i := 0 to |queue|
        invariant pending == queue && rest == [] && kept == Filter(queue[..i], Waits(passes))
        invariant due == Filter(queue[..i], Due(passes))
      {
        assert queue[..i + 1][..i] == queue[..i];
        if queue[i].failedIn < passes {
          due := due + [queue[i]];
        } else {
          kept := kept + [queue[i]];
        }
      }
      assert queue[..|queue|] == queue;
      SplitInv(queue, [], passes, book);
      assert kept + due + [] == kept + due;
      assert forall k :: 0 <= k < |due| ==> due[k] == (kept + due)[|kept| + k];
      pending, rest := kept, due;
    }

    /**
      Makes again the deliveries that failed on an earlier pass, each at most once. A delivery that
      failed in this pass waits, and one that fails again is due on the next pass.
    */
    method Retry(cycle: Cycle)
      requires Valid({}) && rest == []
      modifies this, cycle
      ensures Valid({}) && rest == [] && passes == old(passes) + 1
      ensures Within(book.trace, old(book.trace), ClaimsOf(Filter(old(pending), Due(old(passes)))))
      ensures Requeued(Filter(old(pending), Waits(old(passes))), pending, old(passes),
        ClaimsOf(Filter(old(pending), Due(old(passes)))))
      ensures SameNotices(old(book), book) && NoneSuperseded(old(book), book)
      ensures RetryFates(old(book), book) && undelivered == old(undelivered) + |book.given - old(book.given)|
      ensures (old(cycle.ended) ==> cycle.ended) && forall id :: Sends(book.trace, old(book.trace), id) <= 1
      ensures !cycle.ended ==>
        forall d :: d in Filter(old(pending), Due(old(passes))) ==> Asked(book.trace, old(book.trace), d.id)
      ensures forall id :: Asked(book.trace, old(book.trace), id) ==>
        exists d :: d in old(pending) && d.id == id && d.failedIn < old(passes)
    {
      hide Inv;
      var due := TakeDue();
      ghost var kept, claims := pending, ClaimsOf(due);
      for i := 0 to |due|
        invariant Valid({}) && rest == due[i..] && passes == old(passes)
        invariant Within(book.trace, old(book.trace), claims) && Requeued(kept, pending, passes, claims)
        invariant SameNotices(old(book), book) && NoneSuperseded(old(book), book) && RetryFates(old(book), book)
        invariant (old(cycle.ended) ==> cycle.ended) && TurnsMade(book.trace, old(book.trace), due, i, cycle.ended)
      {
        assert due[i] in due;
        RetryNext(due, i, cycle, old(book), kept, claims);
      }
      passes := passes + 1;
      GivenGrows(old(book.given), book.given);
      AskedOnly(book.trace, old(book.trace), old(pending), old(passes), cycle.ended);
    }

    /**
      The end of an engine pass. Obsolete deliveries go first, so claims are asked and messages sent
      here only for what the firing episodes still owe.
    */
    method SettleAndRetry(firing: seq<Alert>, cycle: Cycle)
      requires Valid({}) && rest == []
      modifies this, cycle
      ensures Valid({}) && rest == [] && passes == old(passes) + 1
      ensures Within(book.trace, old(book.trace), OwedOf(old(pending), firing))
      ensures forall d :: d in pending ==> ClaimOf(d) in OwedOf(old(pending), firing)
      ensures RetryFates(Superseding(old(book), old(pending), StillOwed(firing)), book)
      ensures undelivered == old(undelivered) + |book.given - old(book.given)|
      ensures forall id :: Sends(book.trace, old(book.trace), id) <= 1
      ensures !cycle.ended ==>
        forall d :: d in old(pending) && d.failedIn < old(passes) && !Obsolete(d, firing) ==>
          Asked(book.trace, old(book.trace), d.id)
      ensures forall id :: Asked(book.trace, old(book.trace), id) ==>
        exists d :: d in old(pending) && d.id == id && d.failedIn < old(passes) && !Obsolete(d, firing)
    {
      hide Inv;
      FilterMembers(pending, StillOwed(firing));
      Settle(firing);
      ghost var due := ClaimsOf(Filter(pending, Due(passes)));
      OwedClaims(old(pending), firing, passes);
      FilterMembers(pending, Due(passes));
      Retry(cycle);
      WithinGrows(book.trace, old(book.trace), due, OwedOf(old(pending), firing));
    }
  }

  // ---- the calls of one pass ----

  /** One claim was asked for d since `base`, and how it was answered. */
  predicate ClaimMade(t: Trace, base: Trace, d: Delivery, won: bool, failed: bool) {
    && t.Next? && t.prev == base && t.event.Claimed? && t.event.id == d.id && t.event.claim == ClaimOf(d)
    && (won <==> t.event.reply == Won) && (failed <==> t.event.reply.Error?)
  }

  predicate SendMade(t: Trace, base: Trace, d: Delivery) {
    t.Next? && t.prev == base && t.event.Sent? && t.event.id == d.id && t.event.claim == ClaimOf(d)
    && t.event.notice == d.notice
  }

  /** The delivery went back to the end of the queue as it was. */
  ghost predicate Kept(before: seq<Delivery>, after: seq<Delivery>, d: Delivery, pass: nat, b: Book) {
    d.id < |b.entries| && b.entries[d.id].fate == Queued && after == before + [d.(failedIn := pass)]
  }

  /** An accepted send closes the delivery; one that failed is queued again or was the last attempt. */
  ghost predicate SentFate(before: seq<Delivery>, after: seq<Delivery>, d: Delivery, pass: nat, b: Book) {
    d.id < |b.entries| && b.trace.Next? && b.trace.event.Sent? &&
    if b.trace.event.ok then b.entries[d.id].fate == Delivered && after == before
    else if d.attempts + 1 < MAX_ATTEMPTS then Kept(before, after, d.(attempts := d.attempts + 1), pass, b)
    else b.entries[d.id].fate == Exhausted && after == before
  }

  /** Since `base`, at most one claim was asked and then one message sent, all for one delivery. */
  predicate OneTurn(t: Trace, base: Trace, id: nat) {
    || t == base
    || (t.Next? && t.event.id == id && t.prev == base)
    || (&& t.Next? && t.event.id == id && t.event.Sent? && t.prev.Next? && t.prev.prev == base
        && t.prev.event.id == id && t.prev.event.Claimed?)
  }

  /** Since `base`, a claim was asked or a message sent for the delivery. */
  predicate Asked(t: Trace, base: Trace, id: nat) {
    t != base && t.Next? && (t.event.id == id || Asked(t.prev, base, id))
  }

  /** How many messages were sent for the delivery since `base`. */
  function Sends(t: Trace, base: Trace, id: nat): nat {
    if t == base || t.Begin? then 0
    else Sends(t.prev, base, id) + if t.event.Sent? && t.event.id == id then 1 else 0
  }

  function Length(t: Trace): nat {
    if t.Begin? then 0 else 1 + Length(t.prev)
  }

  lemma {:induction false} WithinLength(t: Trace, base: Trace, claims: set<ClaimKey>)
    requires Within(t, base, claims)
    ensures Length(base) <= Length(t)
  {
    if t != base { WithinLength(t.prev, base, claims); }
  }

  lemma TurnAdds(mid: Trace, t: Trace, base: Trace, id: nat, claims: set<ClaimKey>, x: nat)
    requires Within(mid, base, claims) && OneTurn(t, mid, id)
    ensures Sends(t, base, x) <= Sends(mid, base, x) + if x == id then 1 else 0
    ensures Asked(mid, base, x) || (x == id && t != mid) ==> Asked(t, base, x)
    ensures Asked(t, base, x) ==> Asked(mid, base, x) || x == id
  {
    WithinLength(mid, base, claims);
    if t != mid {
      assert Length(t) > Length(base) && Length(t.prev) >= Length(base);
      if t.prev != mid { assert t.prev != base; }
    }
  }

  /** The first n due deliveries had their turns since `base`, each once, unless the cycle ended. */
  ghost predicate TurnsMade(t: Trace, base: Trace, due: seq<Delivery>, n: nat, ended: bool) {
    && (forall id :: Sends(t, base, id) <= 1) && (forall i :: n <= i < |due| ==> Sends(t, base, due[i].id) == 0)
    && (!ended ==> forall i :: 0 <= i < n && i < |due| ==> Asked(t, base, due[i].id))
    && (forall id :: Asked(t, base, id) ==> exists i :: 0 <= i < n && i < |due| && due[i].id == id)
  }

  /** Only what had failed before this pass was asked for in it. */
  lemma AskedOnly(t: Trace, base: Trace, queue: seq<Delivery>, pass: nat, ended: bool)
    requires var due := Filter(queue, Due(pass)); TurnsMade(t, base, due, |due|, ended)
    ensures forall id :: Asked(t, base, id) ==> exists d :: d in queue && d.id == id && d.failedIn < pass
  {
    var due := Filter(queue, Due(pass));
    FilterMembers(queue, Due(pass));
    forall id | Asked(t, base, id)
      ensures exists d :: d in queue && d.id == id && d.failedIn < pass
    {
      var i :| 0 <= i < |due| && due[i].id == id;
      assert due[i] in due;
    }
  }

  lemma OneMoreTurn(mid: Trace, t: Trace, base: Trace, due: seq<Delivery>, i: nat, claims: set<ClaimKey>, ended: bool)
    requires i < |due| && DistinctIds(due) && Within(mid, base, claims) && OneTurn(t, mid, due[i].id)
    requires TurnsMade(mid, base, due, i, ended) && (!ended ==> t != mid)
    ensures TurnsMade(t, base, due, i + 1, ended)
  {
    hide Sends, Asked;
    forall x: nat
      ensures Sends(t, base, x) <= Sends(mid, base, x) + if x == due[i].id then 1 else 0
      ensures Asked(mid, base, x) || (x == due[i].id && t != mid) ==> Asked(t, base, x)
      ensures Asked(t, base, x) ==> Asked(mid, base, x) || x == due[i].id
    {
      TurnAdds(mid, t, base, due[i].id, claims, x);
    }
  }

  /** Since `base`, each delivery from `first` on was asked for, unless the cycle ended. */
  ghost predicate AllAsked(b: Book, base: Trace, first: nat, ended: bool) {
    !ended ==> forall id :: first <= id < |b.entries| ==> Asked(b.trace, base, id)
  }

  lemma OneMoreAsked(b: Book, b': Book, base: Trace, first: nat, claims: set<ClaimKey>, ended: bool)
    requires AllAsked(b, base, first, ended) && Within(b.trace, base, claims) && |b'.entries| == |b.entries| + 1
    requires OneTurn(b'.trace, b.trace, |b.entries|) && (!ended ==> b'.trace != b.trace)
    ensures AllAsked(b', base, first, ended)
  {
    if !ended {
      forall id | first <= id < |b'.entries| ensures Asked(b'.trace, base, id) {
        TurnAdds(b.trace, b'.trace, base, |b.entries|, claims, id);
      }
    }
  }

  /** What becomes of the deliveries of a notice at once: none is given up, and none has used up its attempts. */
  ghost predicate NoticeFates(b: Book, first: nat) {
    forall id :: first <= id < |b.entries| ==> b.entries[id].fate in {Queued, Delivered, ClaimLost}
  }

  /**
    What a retry makes of a queued delivery. One that leaves the queue is delivered, has used up its
    attempts, or is given up and counted: none goes without a trace.
  */
  ghost predicate RetryFate(b: Book, b': Book, id: nat) {
    && id < |b.entries| && id < |b'.entries| && b'.entries[id].fate in {Queued, Delivered, Exhausted, GivenUp}
    && b'.given == if b'.entries[id].fate == GivenUp then b.given + {id} else b.given
  }

  ghost predicate RetryFates(b: Book, b': Book) {
    && |b'.entries| == |b.entries| && b.given <= b'.given
    && (forall id :: 0 <= id < |b.entries| && b'.entries[id].fate != b.entries[id].fate ==>
          b.entries[id].fate == Queued && b'.entries[id].fate in {Delivered, Exhausted, GivenUp})
    && (forall id: nat :: id in b'.given - b.given <==>
          id < |b.entries| && b.entries[id].fate == Queued && b'.entries[id].fate == GivenUp)
  }

  /** The delivery is still to be made. */
  predicate IsOpen(b: Book, id: nat) {
    id < |b.entries| && b.entries[id].fate == Queued && id !in b.given
  }

  lemma RetryFatesStep(b: Book, mid: Book, b': Book, id: nat)
    requires RetryFates(b, mid) && IsOpen(mid, id) && RetryFate(mid, b', id) && SameBut(mid, b', id)
    ensures RetryFates(b, b')
  {
    assert b.entries[id].fate == Queued;
    forall x: nat | x < |b.entries| && x != id ensures b'.entries[x] == mid.entries[x] {}
    forall x: nat
      ensures x in b'.given - b.given <==>
        x < |b.entries| && b.entries[x].fate == Queued && b'.entries[x].fate == GivenUp
    {
      if x != id { assert x in b'.given - b.given <==> x in mid.given - b.given; }
    }
  }

  lemma GivenGrows(given: set<nat>, more: set<nat>)
    requires given <= more
    ensures |more| == |given| + |more - given|
  {
    assert more == given + (more - given);
  }

  /** The claims of one notice. */
  function NoticeClaims(a: Alert, channels: seq<string>): set<ClaimKey> {
    set c | c in channels :: ClaimKey(Dedup(a), c, PhaseOf(a))
  }

  /** The claims of the queued deliveries that their alerts have not moved past. */
  function OwedOf(xs: seq<Delivery>, firing: seq<Alert>): set<ClaimKey> {
    set d | d in xs && !Obsolete(d, firing) :: ClaimOf(d)
  }

  function Waits(pass: nat): Delivery -> bool {
    (d: Delivery) => d.failedIn >= pass
  }

  function Due(pass: nat): Delivery -> bool {
    (d: Delivery) => d.failedIn < pass
  }

  function ClaimsOf(xs: seq<Delivery>): set<ClaimKey> {
    set d | d in xs :: ClaimOf(d)
  }

  lemma OwedClaims(xs: seq<Delivery>, firing: seq<Alert>, pass: nat)
    ensures var left := Filter(xs, StillOwed(firing));
            && ClaimsOf(Filter(left, Due(pass))) <= OwedOf(xs, firing)
            && forall d :: d in Filter(left, Waits(pass)) ==> ClaimOf(d) in OwedOf(xs, firing)
  {
    var left := Filter(xs, StillOwed(firing));
    FilterMembers(xs, StillOwed(firing));
    FilterMembers(left, Due(pass));
    FilterMembers(left, Waits(pass));
    forall d | d in left ensures ClaimOf(d) in OwedOf(xs, firing) {
      assert StillOwed(firing)(d);
    }
  }

  lemma {:induction false} WithinGrows(t: Trace, base: Trace, claims: set<ClaimKey>, more: set<ClaimKey>)
    requires Within(t, base, claims) && claims <= more
    ensures Within(t, base, more)
  {
    if t != base { WithinGrows(t.prev, base, claims, more); }
  }

  lemma MoveUp(p: seq<Delivery>, q: seq<Delivery>, d: Delivery, tail: seq<Delivery>, b: Book)
    requires QueueInv((p + q) + [d] + tail, b, {})
    ensures QueueInv(p + [d] + (q + tail), b, {})
  {
    Remove(p + q, d, tail, b);
    assert (p + q) + tail == p + (q + tail);
    Insert(p, d, q + tail, b);
  }

  /** Moving the due deliveries behind the others keeps the queue and the book in agreement. */
  lemma {:induction false} SplitInv(done: seq<Delivery>, tail: seq<Delivery>, pass: nat, b: Book)
    requires QueueInv(done + tail, b, {})
    ensures QueueInv(Filter(done, Waits(pass)) + Filter(done, Due(pass)) + tail, b, {})
  {
    hide QueueInv;
    var kept, due := Filter(done, Waits(pass)), Filter(done, Due(pass));
    if done == [] {
      assert kept + due + tail == tail == done + tail;
    } else {
      var front, d := done[..|done| - 1], done[|done| - 1];
      assert done + tail == front + ([d] + tail);
      SplitInv(front, [d] + tail, pass, b);
      var kept0, due0 := Filter(front, Waits(pass)), Filter(front, Due(pass));
      assert kept0 + due0 + ([d] + tail) == (kept0 + due0) + [d] + tail;
      if d.failedIn < pass {
        assert kept + due + tail == (kept0 + due0) + [d] + tail;
      } else {
        MoveUp(kept0, due0, d, tail, b);
        assert kept + due + tail == kept0 + [d] + (due0 + tail);
      }
    }
  }

  /** The deliveries of one notice are on the book, one per channel. */
  ghost predicate NoticeMade(b: Book, first: nat, a: Alert, channels: seq<string>) {
    |b.entries| == first + |channels| && forall i :: 0 <= i < |channels| ==> MadeFor(b, first + i, a, channels[i])
  }

  predicate MadeFor(b: Book, id: nat, a: Alert, channel: string) {
    && id < |b.entries| && b.entries[id].notice == b.notices
    && b.entries[id].claim == ClaimKey(Dedup(a), channel, PhaseOf(a))
    && (b.entries[id].claim.phase == Resolve <==> a.state == Resolved)
  }

  lemma OneMoreMade(b: Book, b': Book, first: nat, a: Alert, channels: seq<string>, i: nat)
    requires i < |channels| && NoticeMade(b, first, a, channels[..i]) && b'.notices == b.notices
    requires |b'.entries| == |b.entries| + 1 && b'.entries[..|b.entries|] == b.entries
    requires MadeFor(b', |b.entries|, a, channels[i])
    ensures NoticeMade(b', first, a, channels[..i + 1])
  {
    var longer := channels[..i + 1];
    forall j | 0 <= j < |longer| ensures MadeFor(b', first + j, a, longer[j]) {
      if j < i {
        assert MadeFor(b, first + j, a, channels[..i][j]);
        assert b'.entries[..|b.entries|][first + j] == b'.entries[first + j];
      }
    }
  }

  /** What was added to the queue is for this alert and failed in this pass. */
  ghost predicate AddedFor(xs: seq<Delivery>, before: seq<Delivery>, a: Alert, pass: nat) {
    before <= xs &&
    forall i :: |before| <= i < |xs| ==> xs[i].alert == a && xs[i].phase == PhaseOf(a) && xs[i].failedIn == pass
  }

  /** The book once the deliveries that `keep` rejects are superseded. */
  function Superseding(b: Book, xs: seq<Delivery>, keep: Delivery -> bool): (b': Book)
    ensures |b'.entries| == |b.entries| && b' == b.(entries := b'.entries)
  {
    if xs == [] then b
    else
      var b' := Superseding(b, xs[..|xs| - 1], keep);
      var d := xs[|xs| - 1];
      if keep(d) || d.id >= |b'.entries| then b' else WithFate(b', d.id, Superseded)
  }

  lemma DropStep(kept: seq<Delivery>, d: Delivery, tail: seq<Delivery>, b: Book, keep: bool)
    requires Inv(kept + [d] + tail, b, {})
    ensures d.id < |b.entries|
    ensures if keep then Inv(kept + [d] + tail, b, {}) else Inv(kept + tail, WithFate(b, d.id, Superseded), {})
  {
    if !keep {
      Remove(kept, d, tail, b);
      Dispose(kept + tail, b, d, !d.unclaimed, Superseded);
    } else {
      assert (kept + [d] + tail)[|kept|] == d;
    }
  }

  lemma {:induction false} DropInv(done: seq<Delivery>, tail: seq<Delivery>, keep: Delivery -> bool, b: Book)
    requires Inv(done + tail, b, {})
    ensures Inv(Filter(done, keep) + tail, Superseding(b, done, keep), {})
  {
    if done != [] {
      var front, d := done[..|done| - 1], done[|done| - 1];
      assert done + tail == front + ([d] + tail);
      DropInv(front, [d] + tail, keep, b);
      var kept := Filter(front, keep);
      assert kept + ([d] + tail) == kept + [d] + tail;
      DropStep(kept, d, tail, Superseding(b, front, keep), keep(d));
      assert Filter(done, keep) == if keep(d) then kept + [d] else kept;
    } else {
      assert done + tail == tail == Filter(done, keep) + tail;
    }
  }

  /** The delivery went back to the end of the queue, or not at all. */
  ghost predicate MayRequeue(before: seq<Delivery>, after: seq<Delivery>, d: Delivery, pass: nat) {
    || after == before
    || (&& |after| == |before| + 1 && after[..|before|] == before
        && after[|before|] == d.(attempts := after[|before|].attempts, unclaimed := after[|before|].unclaimed,
          failedIn := pass))
  }

  /** A delivery whose claim was asked once more was queued again, or was given up. */
  lemma AgainKept(queue: seq<Delivery>, pending: seq<Delivery>, d: Delivery, c: Delivery, pass: nat,
                  b: Book, asked: Book, b': Book)
    requires IsOpen(b, d.id) && asked == b.(trace := asked.trace) && c == d.(attempts := c.attempts)
    requires if c.attempts < MAX_ATTEMPTS then pending == queue + [c.(failedIn := pass)] && b' == asked
             else pending == queue && b' == WithFate(asked, d.id, GivenUp)
    ensures MayRequeue(queue, pending, d, pass) && SameBut(b, b', d.id) && RetryFate(b, b', d.id)
  {}

  lemma AgainDelivered(queue: seq<Delivery>, pending: seq<Delivery>, d: Delivery, pass: nat,
                       b: Book, asked: Book, b': Book)
    requires IsOpen(b, d.id) && asked == b.(trace := asked.trace) && b'.given == b.given
    requires MayRequeue(queue, pending, d.(unclaimed := false), pass) && SameBut(asked, b', d.id)
    requires Kept(queue, pending, d.(unclaimed := false), pass, b')
             || SentFate(queue, pending, d.(unclaimed := false), pass, b')
    ensures MayRequeue(queue, pending, d, pass) && SameBut(b, b', d.id) && RetryFate(b, b', d.id)
  {}

  lemma RequeueAdds(before: seq<Delivery>, after: seq<Delivery>, d: Delivery, pass: nat)
    requires MayRequeue(before, after, d, pass) && d.phase == PhaseOf(d.alert)
    ensures AddedFor(after, before, d.alert, pass)
  {}

  lemma OpenClaimed(b: Book, d: Delivery)
    requires OpenOk(b, d, true)
    ensures OpenOk(b, d.(unclaimed := false), true)
  {}

  lemma OpenUnclaimed(b: Book, d: Delivery)
    requires OpenOk(b, d, false)
    ensures OpenOk(b, d.(unclaimed := true), false)
  {}

  /** What waited comes first; what follows it is due again on the next pass, for one of the claims. */
  ghost predicate Requeued(kept: seq<Delivery>, pending: seq<Delivery>, pass: nat, claims: set<ClaimKey>) {
    kept <= pending && forall i :: |kept| <= i < |pending| ==>
      pending[i].failedIn == pass && ClaimOf(pending[i]) in claims
  }

  ghost predicate SameNotices(b: Book, b': Book) {
    b'.latest == b.latest && b'.notices == b.notices && |b'.entries| == |b.entries|
  }

  /** No delivery became superseded. */
  ghost predicate NoneSuperseded(b: Book, b': Book) {
    |b.entries| <= |b'.entries| &&
    forall id :: 0 <= id < |b'.entries| && b'.entries[id].fate == Superseded ==>
      id < |b.entries| && b.entries[id].fate == Superseded
  }

  /** Only the place of one delivery and the trace may differ. */
  ghost predicate SameBut(b: Book, b': Book, id: nat) {
    && |b'.entries| == |b.entries| && b'.latest == b.latest && b'.notices == b.notices
    && (forall i :: 0 <= i < |b.entries| && i != id ==> b'.entries[i] == b.entries[i])
    && (id < |b.entries| ==> b'.entries[id] == b.entries[id].(fate := b'.entries[id].fate))
    && NoneSuperseded(b, b')
  }
}
