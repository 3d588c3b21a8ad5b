/** One selector and one cycle counter per scope, discarded when the scope has long been idle. */
module ScopedSelectors {
  import opened Basics
  import opened Selector
  import SelectorRuns

  datatype Scope = Scope(history: History, cycle: nat, lastUsed: int)

  /** In nanoseconds, as every time here. */
  const HOUR := 3_600_000_000_000
  const SCOPE_IDLE_TTL := 6 * HOUR

  /** The zero time, which no clock shows. */
  const NEVER := 0

  predicate Expired(lastUsed: int, now: int) {
    lastUsed != NEVER && now - lastUsed > SCOPE_IDLE_TTL
  }

  type Table = map<string, Scope>

  function Pruned(scopes: Table, now: int): Table {
    if |scopes| < 2 then scopes else map k | k in scopes && !Expired(scopes[k].lastUsed, now) :: scopes[k]
  }

  /** The scope as a use of it finds it: its state, its next cycle. */
  function Entered(scopes: Table, key: string, now: int): Scope {
    if key in scopes then Scope(scopes[key].history, scopes[key].cycle + 1, now) else Scope(map[], 1, now)
  }

  function Next(scopes: Table, key: string, now: int): Table {
    Pruned(scopes[key := Entered(scopes, key, now)], now)
  }

  class Scopes {
    const opts: Options
    var scopes: Table

    constructor (o: Options)
      ensures opts == o && scopes == map[]
    {
      opts := o;
      scopes := map[];
    }

    /** The state of a scope for its next cycle. */
    method NextKind(key: string, now: int) returns (state: Scope)
      modifies this
      ensures scopes == Next(old(scopes), key, now) && key in scopes && state == scopes[key]
      ensures state == Entered(old(scopes), key, now)
    {
      state := if key in scopes then scopes[key] else Scope(map[], 0, NEVER);
      state := state.(cycle := state.cycle + 1, lastUsed := now);
      scopes := scopes[key := state];
      PruneLocked(now);
    }

    method PruneLocked(now: int)
      modifies this
      ensures scopes == Pruned(old(scopes), now)
    {
      if |scopes| < 2 {
        return;
      }
      var left, kept := scopes.Keys, scopes;
      while left != {}
        invariant left <= scopes.Keys && left <= kept.Keys <= scopes.Keys
        invariant forall k :: k in kept ==> kept[k] == scopes[k]
        invariant forall k :: k in scopes && k !in left ==> (k in kept <==> !Expired(scopes[k].lastUsed, now))
        decreases |left|
      {
        var k :| k in left;
        if kept[k].lastUsed != NEVER && now - kept[k].lastUsed > SCOPE_IDLE_TTL {
          kept := kept - {k};
        }
        left := left - {k};
      }
      assert kept == Pruned(scopes, now);
      scopes := kept;
    }
  }

  // ---- runs ----

  /** The uses of all scopes, in the order in which they come. */
  datatype Uses = NoUse | Used(prev: Uses, key: string, now: int, input: seq<Candidate>)

  /** A scope after it has selected and forgotten. */
  function Worked(o: Options, s: Scope, input: seq<Candidate>): Scope {
    s.(history := Forgotten(o, Remember(o, s.history, s.cycle, input), s.cycle))
  }

  function After(o: Options, uses: Uses): Table {
    match uses
    case NoUse => map[]
    case Used(prev, key, now, input) =>
      Next(After(o, prev), key, now)[key := Worked(o, Entered(After(o, prev), key, now), input)]
  }

  /** The state of a scope that is used alone: only its own uses count. */
  function Alone(o: Options, uses: Uses, key: string): Scope {
    match uses
    case NoUse => Scope(map[], 0, NEVER)
    case Used(prev, k, now, input) =>
      var s := Alone(o, prev, key);
      if k == key then Worked(o, Scope(s.history, s.cycle + 1, now), input) else s
  }

  predicate Known(uses: Uses, key: string) {
    uses.Used? && (uses.key == key || Known(uses.prev, key))
  }

  /** No other scope was used when this one had been idle for too long. */
  predicate NeverIdle(o: Options, uses: Uses, key: string) {
    uses.Used? ==>
      && NeverIdle(o, uses.prev, key)
      && (uses.key != key && Known(uses.prev, key) ==> !Expired(Alone(o, uses.prev, key).lastUsed, uses.now))
  }

  lemma PrunedKeeps(scopes: Table, key: string, other: string, now: int)
    requires key in scopes && other in scopes && other != key
    ensures key in Pruned(scopes, now) <==> !Expired(scopes[key].lastUsed, now)
    ensures key in Pruned(scopes, now) ==> Pruned(scopes, now)[key] == scopes[key]
  {
    assert {key, other} <= scopes.Keys;
    SubsetSize({key, other}, scopes.Keys);
  }

  /** What the use of another scope does to this one. */
  lemma OtherUse(before: Table, key: string, other: string, now: int, worked: Scope)
    requires other != key
    ensures var after := Next(before, other, now)[other := worked];
            && (key in after <==> key in before && !Expired(before[key].lastUsed, now))
            && (key in after ==> after[key] == before[key])
  {
    if key in before {
      PrunedKeeps(before[other := Entered(before, other, now)], key, other, now);
    }
  }

  /** What a run does to one scope. */
  ghost predicate ScopeIs(known: bool, neverIdle: bool, table: Table, key: string, alone: Scope) {
    && (!known ==> key !in table && alone == Scope(map[], 0, NEVER))
    && (known ==> alone.cycle >= 1)
    && (key in table ==> table[key].lastUsed == alone.lastUsed)
    && (known && neverIdle ==> key in table && table[key] == alone)
    && (known && !neverIdle && key in table ==> table[key].cycle < alone.cycle)
  }

  lemma {:induction false} ScopeAfter(o: Options, uses: Uses, key: string)
    ensures ScopeIs(Known(uses, key), NeverIdle(o, uses, key), After(o, uses), key, Alone(o, uses, key))
  {
    match uses
    case NoUse =>
    case Used(prev, k, now, input) =>
      ScopeAfter(o, prev, key);
      var before := After(o, prev);
      if k != key {
        OtherUse(before, key, k, now, Worked(o, Entered(before, k, now), input));
      } else {
        if !Known(prev, key) { UnknownNeverIdle(o, prev, key); }
        OwnUse(o, before, Known(prev, key), NeverIdle(o, prev, key), key, Alone(o, prev, key), now, input);
      }
  }

  lemma OwnUse(o: Options, before: Table, known: bool, neverIdle: bool, key: string, alone: Scope, now: int,
               input: seq<Candidate>)
    requires ScopeIs(known, neverIdle, before, key, alone) && (!known ==> neverIdle)
    ensures ScopeIs(true, neverIdle, Next(before, key, now)[key := Worked(o, Entered(before, key, now), input)], key,
                    Worked(o, Scope(alone.history, alone.cycle + 1, now), input))
  {
  }

  lemma {:induction false} UnknownNeverIdle(o: Options, uses: Uses, key: string)
    requires !Known(uses, key)
    ensures NeverIdle(o, uses, key)
  {
    if uses.Used? { UnknownNeverIdle(o, uses.prev, key); }
  }

  /**
    A scope's state is the one it would have if no other scope existed, however their uses interleave,
    if and only if no other scope was used while it had been idle for longer than the limit.
  */
  lemma IndependentExactly(o: Options, uses: Uses, key: string)
    requires Known(uses, key)
    ensures (key in After(o, uses) && After(o, uses)[key] == Alone(o, uses, key)) <==> NeverIdle(o, uses, key)
  {
    ScopeAfter(o, uses, key);
  }

  predicate ClockForward(uses: Uses, now: int) {
    uses.Used? ==> uses.now <= now && ClockForward(uses.prev, uses.now)
  }

  /** Every use of the scope comes within the limit of its previous use. */
  predicate ShortGaps(o: Options, uses: Uses, key: string) {
    uses.Used? ==>
      && ShortGaps(o, uses.prev, key)
      && (uses.key == key && Known(uses.prev, key) ==> uses.now - Alone(o, uses.prev, key).lastUsed <= SCOPE_IDLE_TTL)
  }

  lemma {:induction false} ShortGapsNeverIdle(o: Options, uses: Uses, key: string, now: int)
    requires ClockForward(uses, now) && ShortGaps(o, uses, key)
    requires Known(uses, key) ==> now - Alone(o, uses, key).lastUsed <= SCOPE_IDLE_TTL
    ensures NeverIdle(o, uses, key)
  {
    if uses.Used? {
      ShortGapsNeverIdle(o, uses.prev, key, uses.now);
    }
  }

  /** A scope used often enough gets the answers it would get alone. */
  lemma AnswersIndependent(o: Options, uses: Uses, key: string, now: int, input: seq<Candidate>)
    requires ClockForward(uses, now) && ShortGaps(o, uses, key)
    requires Known(uses, key) ==> now - Alone(o, uses, key).lastUsed <= SCOPE_IDLE_TTL
    ensures var s, t := Entered(After(o, uses), key, now), Alone(o, Used(uses, key, now, input), key);
            && s.cycle == t.cycle && s.history == Alone(o, uses, key).history
            && Choose(o, s.history, s.cycle, input) == Choose(o, Alone(o, uses, key).history, t.cycle, input)
  {
    ShortGapsNeverIdle(o, uses, key, now);
    ScopeAfter(o, uses, key);
  }

  /** One use of another scope after the limit is enough to lose a scope. */
  lemma IdleScopeIsLost(o: Options, key: string, other: string, start: int, input: seq<Candidate>)
    requires key != other && start != NEVER
    ensures key !in After(o, Used(Used(NoUse, key, start, input), other, start + SCOPE_IDLE_TTL + 1, input))
    ensures key in After(o, Used(Used(NoUse, key, start, input), other, start + SCOPE_IDLE_TTL, input))
  {
    var first := Used(NoUse, key, start, input);
    ScopeAfter(o, first, key);
    PrunedKeeps(After(o, first)[other := Entered(After(o, first), other, start + SCOPE_IDLE_TTL + 1)], key, other,
      start + SCOPE_IDLE_TTL + 1);
    PrunedKeeps(After(o, first)[other := Entered(After(o, first), other, start + SCOPE_IDLE_TTL)], key, other,
      start + SCOPE_IDLE_TTL);
  }
}
