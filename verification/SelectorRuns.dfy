/** Runs of selections: what forgetting leaves unchanged, and how much is ever remembered. */
module SelectorRuns {
  import opened Basics
  import opened Selector

  datatype Op = Select(cycle: nat, input: seq<Candidate>) | Forget(cycle: nat)

  datatype Run = Start | Then(prev: Run, op: Op)

  /** What the selector holds after a run. */
  function Held(o: Options, run: Run): History {
    match run
    case Start => map[]
    case Then(prev, Select(cycle, input)) => Remember(o, Held(o, prev), cycle, input)
    case Then(prev, Forget(cycle)) => Forgotten(o, Held(o, prev), cycle)
  }

  /** The last cycle in which each key was fresh, over the whole run. */
  function LastFresh(o: Options, run: Run): History {
    match run
    case Start => map[]
    case Then(prev, Select(cycle, input)) => Remember(o, LastFresh(o, prev), cycle, input)
    case Then(prev, Forget(_)) => LastFresh(o, prev)
  }

  function Now(run: Run): nat {
    if run.Start? then 0 else run.op.cycle
  }

  predicate NonDecreasing(run: Run) {
    run.Then? ==> NonDecreasing(run.prev) && Now(run.prev) <= run.op.cycle
  }

  /** Whatever is in one history and not in the other is too old to matter. */
  ghost predicate Agree(held: History, whole: History, threshold: nat) {
    && (forall k :: k in held ==> k in whole && held[k] == whole[k])
    && (forall k :: k in whole && k !in held ==> whole[k] < threshold)
  }

  lemma AgreeAnswers(o: Options, held: History, whole: History, cycle: nat, input: seq<Candidate>, leading: set<string>)
    requires Agree(held, whole, Threshold(o, cycle))
    ensures Decide(o, held, cycle, input, leading) == Decide(o, whole, cycle, input, leading)
  {
    assert RetainedKeys(input, leading, held, Threshold(o, cycle)) == RetainedKeys(input, leading, whole,
      Threshold(o, cycle));
  }

  lemma {:induction false} RunAgree(o: Options, run: Run, cycle: nat)
    requires NonDecreasing(run) && Now(run) <= cycle
    ensures Agree(Held(o, run), LastFresh(o, run), Threshold(o, cycle))
  {
    if run.Then? {
      RunAgree(o, run.prev, run.op.cycle);
    }
  }

  /**
    However often old keys are forgotten, every answer is the one that the whole history of last fresh
    cycles gives.
  */
  lemma ForgettingChangesNoAnswer(o: Options, run: Run, cycle: nat, input: seq<Candidate>)
    requires NonDecreasing(run) && Now(run) <= cycle
    ensures Choose(o, Held(o, run), cycle, input) == Choose(o, LastFresh(o, run), cycle, input)
  {
    RunAgree(o, run, cycle);
    AgreeAnswers(o, Held(o, run), LastFresh(o, run), cycle, input, FreshKeys(input, o.topN));
  }

  // ---- how much is held ----

  function LastSelect(run: Run): int {
    if run.Start? then -1 else if run.op.Select? then run.op.cycle else LastSelect(run.prev)
  }

  predicate StrictlyIncreasing(run: Run) {
    run.Then? ==> StrictlyIncreasing(run.prev) && (run.op.Select? ==> LastSelect(run.prev) < run.op.cycle)
  }

  function SeenIn(h: History, cycle: nat): set<string> {
    set k | k in h && h[k] == cycle
  }

  function Budget(o: Options): nat {
    if o.topN < 0 then 0 else 2 * o.topN
  }

  /** No cycle accounts for more keys than the two rankings can name. */
  ghost predicate Bounded(h: History, limit: nat, last: int) {
    (forall k :: k in h ==> h[k] <= last) && forall cycle: nat :: |SeenIn(h, cycle)| <= limit
  }

  lemma {:induction false} KeysSize(cs: seq<Candidate>)
    ensures |Keys(cs)| <= |cs|
  {
    if cs != [] {
      var front, last := cs[..|cs| - 1], cs[|cs| - 1];
      assert cs == front + [last];
      KeysSize(front);
      assert Keys(cs) == Keys(front) + {last.key};
    }
  }

  lemma FreshSize(o: Options, input: seq<Candidate>)
    ensures |FreshKeys(input, o.topN)| <= Budget(o)
  {
    forall r: Ranking ensures |TopKeys(r, input, o.topN)| <= Clamp(o.topN, |input|) {
      KeysSize(Sorting.Sort(input, Order(r))[..Clamp(o.topN, |input|)]);
    }
    UnionSize(TopKeys(Primary, input, o.topN), TopKeys(Secondary, input, o.topN));
  }

  lemma SeenBounded(h: History, keys: set<string>, cycle: nat, limit: nat, last: int)
    requires Bounded(h, limit, last) && last < cycle && |keys| <= limit
    ensures Bounded(Seen(h, keys, cycle), limit, cycle)
  {
    var after := Seen(h, keys, cycle);
    forall c: nat ensures |SeenIn(after, c)| <= limit {
      SubsetSize(SeenIn(after, c), if c == cycle then keys else SeenIn(h, c));
    }
  }

  lemma ForgottenBounded(o: Options, h: History, cycle: nat, limit: nat, last: int)
    requires Bounded(h, limit, last)
    ensures Bounded(Forgotten(o, h, cycle), limit, last)
  {
    forall c: nat ensures |SeenIn(Forgotten(o, h, cycle), c)| <= limit {
      SubsetSize(SeenIn(Forgotten(o, h, cycle), c), SeenIn(h, c));
    }
  }

  lemma {:induction false} RunBounded(o: Options, run: Run)
    requires StrictlyIncreasing(run)
    ensures Bounded(Held(o, run), Budget(o), LastSelect(run))
  {
    match run
    case Start =>
    case Then(prev, Select(cycle, input)) =>
      RunBounded(o, prev);
      FreshSize(o, input);
      SeenBounded(Held(o, prev), FreshKeys(input, o.topN), cycle, Budget(o), LastSelect(prev));
    case Then(prev, Forget(cycle)) =>
      RunBounded(o, prev);
      ForgottenBounded(o, Held(o, prev), cycle, Budget(o), LastSelect(prev));
  }

  /** A history whose cycles lie in a range of n cycles holds at most n times the limit. */
  lemma {:induction false} RangeSize(h: History, from: nat, n: nat, limit: nat)
    requires (forall k :: k in h ==> from <= h[k] < from + n) && forall cycle: nat :: |SeenIn(h, cycle)| <= limit
    ensures |h| <= n * limit
    decreases n
  {
    if n == 0 {
      assert h.Keys == {};
    } else {
      var last := SeenIn(h, from + n - 1);
      var rest := h - last;
      forall cycle: nat ensures |SeenIn(rest, cycle)| <= limit {
        SubsetSize(SeenIn(rest, cycle), SeenIn(h, cycle));
      }
      RangeSize(rest, from, n - 1, limit);
      assert h.Keys == rest.Keys + last;
      assert |h.Keys| == |rest.Keys| + |last|;
      assert n * limit == (n - 1) * limit + limit;
    }
  }

  /** After a selection and its forgetting, memory is bounded by the window and the two rankings. */
  lemma MemoryBounded(o: Options, run: Run, cycle: nat, input: seq<Candidate>)
    requires StrictlyIncreasing(Then(run, Select(cycle, input)))
    ensures |Held(o, Then(Then(run, Select(cycle, input)), Forget(cycle)))| <= (Window(o) + 1) * Budget(o)
  {
    var after := Then(Then(run, Select(cycle, input)), Forget(cycle));
    RunBounded(o, after);
    assert LastSelect(after) == LastSelect(after.prev) == cycle;
    var from := Threshold(o, cycle);
    RangeSize(Held(o, after), from, Window(o) + 1, Budget(o));
  }
}
