/** The choice of the series to report: the top of two rankings, with hysteresis under a cap. */
module Selector {
  import opened Basics
  import opened Sorting

  datatype Candidate = Candidate(key: string, primary: real, secondary: real)

  datatype Options = Options(topN: int, hysteresis: int, maxKeys: int)

  /** The size of an unsigned 64-bit word. */
  const WORD: nat := 0x1_0000_0000_0000_0000

  function Defaults(o: Options): Options {
    var topN := if o.topN == 0 then 50 else o.topN;
    Options(topN, if o.hysteresis == 0 then 5 else o.hysteresis,
            if o.maxKeys != 0 then o.maxKeys else if 2 * topN > 200 then 2 * topN else 200)
  }

  /** What is not configured is 50 keys a ranking, 5 cycles and a cap of 200, or of both rankings if they are larger. */
  lemma DefaultsAre(o: Options)
    ensures var d := Defaults(o);
      && d.topN == (if o.topN != 0 then o.topN else 50)
      && d.hysteresis == (if o.hysteresis != 0 then o.hysteresis else 5)
      && (o.maxKeys != 0 ==> d.maxKeys == o.maxKeys)
      && (o.maxKeys == 0 ==> d.maxKeys in {200, 2 * d.topN} && d.maxKeys >= 200 && d.maxKeys >= 2 * d.topN)
  {}

  // ---- rankings ----

  datatype Ranking = Primary | Secondary

  function Metric(r: Ranking, c: Candidate): real {
    if r.Primary? then c.primary else c.secondary
  }

  predicate Before(r: Ranking, a: Candidate, b: Candidate) {
    Metric(r, a) > Metric(r, b) || (Metric(r, a) == Metric(r, b) && StringLess(a.key, b.key))
  }

  function Order(r: Ranking): (Candidate, Candidate) -> bool {
    (a, b) => Before(r, a, b)
  }

  function Elems(cs: seq<Candidate>): set<Candidate> {
    set c | c in cs
  }

  function Keys(cs: seq<Candidate>): set<string> {
    set c | c in cs :: c.key
  }

  predicate Unique(cs: seq<Candidate>) {
    forall i, j :: 0 <= i < j < |cs| ==> cs[i].key != cs[j].key
  }

  /** The candidates that rank before c. */
  function Ahead(r: Ranking, c: Candidate, all: set<Candidate>): set<Candidate> {
    set d | d in all && Before(r, d, c)
  }

  /** The candidates with fewer than n ahead of them. */
  function Top(r: Ranking, all: set<Candidate>, n: int): set<Candidate> {
    set c | c in all && |Ahead(r, c, all)| < n
  }

  lemma BeforeOrder(r: Ranking, x: Candidate, y: Candidate)
    ensures !(Before(r, x, y) && Before(r, y, x)) && (x.key != y.key ==> Before(r, x, y) || Before(r, y, x))
  {
    StringLessTrichotomy(x.key, y.key);
  }

  lemma BeforeTransitive(r: Ranking, x: Candidate, y: Candidate, z: Candidate)
    requires Before(r, x, y) && Before(r, y, z)
    ensures Before(r, x, z)
  {
    if StringLess(x.key, y.key) && StringLess(y.key, z.key) {
      StringLessTransitive(x.key, y.key, z.key);
    }
  }

  lemma KeyNames(cs: seq<Candidate>, x: Candidate, y: Candidate)
    requires Unique(cs) && x in cs && y in cs && x.key == y.key
    ensures x == y
  {
    var i :| 0 <= i < |cs| && cs[i] == x;
    var j :| 0 <= j < |cs| && cs[j] == y;
  }

  lemma Ordered(r: Ranking, cs: seq<Candidate>)
    requires Unique(cs)
    ensures StrictTotalOn(Order(r), cs)
  {
    forall x, y | x in cs && y in cs && x != y ensures x.key != y.key {
      if x.key == y.key { KeyNames(cs, x, y); }
    }
    forall x, y { BeforeOrder(r, x, y); }
    forall x, y, z | Before(r, x, y) && Before(r, y, z) { BeforeTransitive(r, x, y, z); }
  }

  lemma {:induction false} SizeOfUnique(cs: seq<Candidate>)
    requires Unique(cs)
    ensures |Elems(cs)| == |cs|
  {
    if cs != [] {
      var front, last := cs[..|cs| - 1], cs[|cs| - 1];
      SizeOfUnique(front);
      assert Elems(cs) == Elems(front) + {last};
      assert last !in front;
    }
  }

  /** In a sorted list the candidates ahead of an element are those before it. */
  lemma AheadInList(r: Ranking, cs: seq<Candidate>, i: nat)
    requires Unique(cs) && SortedBy(Order(r), cs) && i < |cs|
    ensures |Ahead(r, cs[i], Elems(cs))| == i
  {
    forall j | 0 <= j < |cs| ensures Before(r, cs[j], cs[i]) <==> j < i {
      BeforeOrder(r, cs[i], cs[j]);
      if j < i { assert Order(r)(cs[j], cs[i]); }
      if i < j { assert Order(r)(cs[i], cs[j]); }
    }
    assert Ahead(r, cs[i], Elems(cs)) == Elems(cs[..i]);
    SizeOfUnique(cs[..i]);
  }

  /** The first n of a sorted list are the top n. */
  lemma HeadIsTop(r: Ranking, cs: seq<Candidate>, n: int)
    requires Unique(cs) && SortedBy(Order(r), cs)
    ensures Elems(cs[..Clamp(n, |cs|)]) == Top(r, Elems(cs), n)
  {
    forall i | 0 <= i < |cs| ensures |Ahead(r, cs[i], Elems(cs))| == i { AheadInList(r, cs, i); }
    forall c | c in Top(r, Elems(cs), n) ensures c in cs[..Clamp(n, |cs|)] {
      var i :| 0 <= i < |cs| && cs[i] == c;
      assert cs[..Clamp(n, |cs|)][i] == c;
    }
  }

  // ---- what is chosen ----

  type History = map<string, nat>

  function TopKeys(r: Ranking, input: seq<Candidate>, n: int): set<string> {
    Keys(Sort(input, Order(r))[..Clamp(n, |input|)])
  }

  function FreshKeys(input: seq<Candidate>, n: int): set<string> {
    TopKeys(Primary, input, n) + TopKeys(Secondary, input, n)
  }

  function Window(o: Options): nat {
    o.hysteresis % WORD
  }

  /** The oldest cycle that still counts. */
  function Threshold(o: Options, cycle: nat): nat {
    if cycle > Window(o) then cycle - Window(o) else 0
  }

  function RetainedKeys(input: seq<Candidate>, leading: set<string>, history: History, threshold: nat): set<string> {
    set c | c in input && c.key !in leading && c.key in history && history[c.key] >= threshold :: c.key
  }

  /** The candidate of each key; the last one when a key is given twice. */
  function ByKey(input: seq<Candidate>): (m: map<string, Candidate>)
    ensures m.Keys == Keys(input) && forall k :: k in m ==> m[k] in input && m[k].key == k
  {
    if input == [] then map[]
    else
      var front, last := input[..|input| - 1], input[|input| - 1];
      assert input == front + [last];
      ByKey(front)[last.key := last]
  }

  function Picked(keys: set<string>, byKey: map<string, Candidate>): set<Candidate> {
    set k | k in keys && k in byKey :: byKey[k]
  }

  /** What the cap leaves: retained candidates give way first. */
  function Cut(leading: set<Candidate>, retained: set<Candidate>, cap: int): set<Candidate> {
    if |leading| + |retained| <= cap then leading + retained
    else if |leading| > cap then Top(Primary, leading, cap)
    else leading + Top(Primary, retained, cap - |leading|)
  }

  datatype Answer = Answer(kept: set<Candidate>, truncated: bool)

  /** The answer once it is known which keys are fresh. */
  function Decide(o: Options, history: History, cycle: nat, input: seq<Candidate>, leading: set<string>): Answer {
    var first := Picked(leading, ByKey(input));
    var retained := Picked(RetainedKeys(input, leading, history, Threshold(o, cycle)), ByKey(input));
    Answer(Cut(first, retained, o.maxKeys), |first| + |retained| > o.maxKeys)
  }

  function Choose(o: Options, history: History, cycle: nat, input: seq<Candidate>): Answer {
    Decide(o, history, cycle, input, FreshKeys(input, o.topN))
  }

  function Seen(history: History, keys: set<string>, cycle: nat): History {
    history + map k | k in keys :: cycle
  }

  /** The last cycle in which each key was fresh, after one more cycle. */
  function Remember(o: Options, history: History, cycle: nat, input: seq<Candidate>): History {
    Seen(history, FreshKeys(input, o.topN), cycle)
  }

  function Forgotten(o: Options, history: History, cycle: nat): History {
    map k | k in history && history[k] >= Threshold(o, cycle) :: history[k]
  }

  /** The list holds exactly the candidates of a set, by descending primary metric and then by key. */
  ghost predicate Lists(cs: seq<Candidate>, all: set<Candidate>) {
    Unique(cs) && SortedBy(Order(Primary), cs) && Elems(cs) == all
  }

  /** There is one such list, so an answer does not depend on the order of the input. */
  lemma ListsUnique(a: seq<Candidate>, b: seq<Candidate>, all: set<Candidate>)
    requires Lists(a, all) && Lists(b, all)
    ensures a == b
  {
    Ordered(Primary, a);
    SameMultiset(a, b);
    SortedUnique(a, b, Order(Primary));
  }

  lemma SameMultiset(a: seq<Candidate>, b: seq<Candidate>)
    requires Unique(a) && Unique(b) && Elems(a) == Elems(b)
    ensures multiset(a) == multiset(b)
  {
    forall c ensures multiset(a)[c] == multiset(b)[c] {
      Once(a, c);
      Once(b, c);
      assert c in a <==> c in Elems(a);
      assert c in b <==> c in Elems(b);
    }
  }

  // ---- the selector ----

  method IndexByKey(input: seq<Candidate>) returns (byKey: map<string, Candidate>)
    ensures byKey == ByKey(input)
  {
    byKey := map[];
    for i := 0 to |input|
      invariant byKey == ByKey(input[..i])
    {
      assert input[..i + 1][..i] == input[..i];
      byKey := byKey[input[i].key := input[i]];
    }
    assert input[..|input|] == input;
  }

  lemma OneMore(list: seq<Candidate>, c: Candidate)
    ensures Keys(list + [c]) == Keys(list) + {c.key} && Elems(list + [c]) == Elems(list) + {c}
    ensures Unique(list) && c.key !in Keys(list) ==> Unique(list + [c])
  {
    assert forall i :: 0 <= i < |list| ==> list[i].key in Keys(list);
    assert forall d :: d in list + [c] <==> d in list || d == c;
  }

  lemma PickedGrows(keys: set<string>, byKey: map<string, Candidate>, k: string)
    requires k in byKey
    ensures Picked(keys + {k}, byKey) == Picked(keys, byKey) + {byKey[k]}
  {
  }

  /** Adds the keys of the first n of a list. */
  method AddKeys(sorted: seq<Candidate>, n: int, keys: set<string>) returns (out: set<string>)
    ensures out == keys + Keys(sorted[..Clamp(n, |sorted|)])
  {
    out := keys;
    var i := 0;
    while i < |sorted| && i < n
      invariant 0 <= i <= |sorted| && (i <= n || i == 0) && out == keys + Keys(sorted[..i])
    {
      OneMore(sorted[..i], sorted[i]);
      assert sorted[..i + 1] == sorted[..i] + [sorted[i]];
      out := out + {sorted[i].key};
      i := i + 1;
    }
  }

  method AddTop(r: Ranking, input: seq<Candidate>, n: int, keys: set<string>) returns (out: set<string>)
    ensures out == keys + TopKeys(r, input, n)
  {
    out := AddKeys(Sort(input, Order(r)), n, keys);
  }

  method Retain(input: seq<Candidate>, leading: set<string>, history: History, threshold: nat)
    returns (out: set<string>)
    ensures out == RetainedKeys(input, leading, history, threshold)
  {
    out := {};
    for i := 0 to |input|
      invariant out == RetainedKeys(input[..i], leading, history, threshold)
    {
      var c := input[i];
      assert input[..i + 1] == input[..i] + [c];
      if c.key !in leading && c.key in history && history[c.key] >= threshold {
        out := out + {c.key};
      }
    }
    assert input[..|input|] == input;
  }

  /** The candidates of some keys, in the order in which a map hands out its keys. */
  method Collect(keys: set<string>, byKey: map<string, Candidate>) returns (list: seq<Candidate>)
    requires keys <= byKey.Keys && forall k :: k in byKey ==> byKey[k].key == k
    ensures Unique(list) && Elems(list) == Picked(keys, byKey)
  {
    list := [];
    var left := keys;
    while left != {}
      invariant left <= keys && Unique(list) && Keys(list) == keys - left && Elems(list) == Picked(keys - left, byKey)
      decreases |left|
    {
      var k :| k in left;
      assert keys - (left - {k}) == keys - left + {k};
      OneMore(list, byKey[k]);
      PickedGrows(keys - left, byKey, k);
      list := list + [byKey[k]];
      left := left - {k};
    }
    assert keys - left == keys;
  }

  method SortByRank(list: seq<Candidate>) returns (sorted: seq<Candidate>)
    ensures sorted == Sort(list, Order(Primary)) && (Unique(list) ==> Lists(sorted, Elems(list)))
  {
    sorted := Sort(list, Order(Primary));
    if Unique(list) {
      Ordered(Primary, list);
      SortSorted(list, Order(Primary));
      SortedOnce(list, sorted);
    }
  }

  lemma SortedOnce(list: seq<Candidate>, sorted: seq<Candidate>)
    requires Unique(list) && multiset(list) == multiset(sorted) && forall c :: c in sorted <==> c in list
    ensures Unique(sorted)
  {
    NoDuplicatesPermuted(list, sorted);
    forall i, j | 0 <= i < j < |sorted| ensures sorted[i].key != sorted[j].key {
      if sorted[i].key == sorted[j].key { KeyNames(list, sorted[i], sorted[j]); }
    }
  }

  lemma FreshKeysKnown(input: seq<Candidate>, n: int)
    ensures FreshKeys(input, n) <= Keys(input)
  {
    forall r: Ranking ensures TopKeys(r, input, n) <= Keys(input) {
      var sorted := Sort(input, Order(r));
      assert forall c :: c in sorted[..Clamp(n, |input|)] ==> c in sorted;
    }
  }

  lemma Joined(a: seq<Candidate>, b: seq<Candidate>)
    requires Unique(a) && Unique(b) && Keys(a) !! Keys(b)
    ensures Unique(a + b) && Elems(a + b) == Elems(a) + Elems(b)
  {
    forall i, j | 0 <= i < |a| && 0 <= j < |b| ensures a[i].key != b[j].key {
      assert a[i].key in Keys(a) && b[j].key in Keys(b);
    }
  }

  lemma HeadKeys(a: seq<Candidate>, n: nat)
    requires Unique(a) && n <= |a|
    ensures Unique(a[..n]) && Keys(a[..n]) <= Keys(a)
  {
    assert forall c :: c in a[..n] ==> c in a;
  }

  /** Cutting two sorted lists at the cap leaves what the cap leaves of the sets they list. */
  lemma CutLists(a: seq<Candidate>, b: seq<Candidate>, cap: nat, a': seq<Candidate>, b': seq<Candidate>)
    requires Unique(a) && SortedBy(Order(Primary), a) && Unique(b) && SortedBy(Order(Primary), b)
    requires Keys(a) !! Keys(b)
    requires if |a| + |b| <= cap then a' == a && b' == b
             else if |a| > cap then a' == a[..cap] && b' == [] else a' == a && b' == b[..cap - |a|]
    ensures Unique(a' + b') && Elems(a' + b') == Cut(Elems(a), Elems(b), cap)
    ensures |Elems(a)| == |a| && |Elems(b)| == |b|
  {
    SizeOfUnique(a);
    SizeOfUnique(b);
    if |a| + |b| > cap {
      if |a| > cap {
        HeadIsTop(Primary, a, cap);
        HeadKeys(a, cap);
      } else {
        HeadIsTop(Primary, b, cap - |a|);
        HeadKeys(b, cap - |a|);
      }
    }
    Joined(a', b');
  }

  lemma PickedKeys(list: seq<Candidate>, keys: set<string>, byKey: map<string, Candidate>)
    requires keys <= byKey.Keys && (forall k :: k in byKey ==> byKey[k].key == k) && Elems(list) == Picked(keys, byKey)
    ensures Keys(list) == keys
  {
    forall c | c in list ensures c.key in keys { assert c in Elems(list); }
    forall k | k in keys ensures k in Keys(list) { assert byKey[k] in Elems(list); }
  }

  method MarkFresh(input: seq<Candidate>, n: int) returns (leading: set<string>)
    ensures leading == FreshKeys(input, n) && leading <= Keys(input)
  {
    leading := AddTop(Primary, input, n, {});
    leading := AddTop(Secondary, input, n, leading);
    FreshKeysKnown(input, n);
    assert leading == FreshKeys(input, n);
  }

  lemma RetainedKnown(input: seq<Candidate>, leading: set<string>, history: History, threshold: nat)
    ensures var keys := RetainedKeys(input, leading, history, threshold); keys <= Keys(input) && keys !! leading
  {
  }

  lemma EmptyInput(o: Options, history: History, cycle: nat)
    requires o.maxKeys >= 0
    ensures Choose(o, history, cycle, []) == Answer({}, false) && Remember(o, history, cycle, []) == history
  {
    FreshKeysKnown([], o.topN);
    assert FreshKeys([], o.topN) == {};
  }

  class SeriesSelector {
    const opts: Options
    var lastSeen: History

    constructor (o: Options)
      ensures opts == Defaults(o) && lastSeen == map[]
    {
      opts := Defaults(o);
      lastSeen := map[];
    }

    /** The keys to report for this cycle, and whether the cap forced any out. */
    method Select(cycle: nat, input: seq<Candidate>) returns (kept: seq<Candidate>, truncated: bool)
      requires opts.maxKeys >= 0
      modifies this
      ensures Lists(kept, Choose(opts, old(lastSeen), cycle, input).kept)
      ensures truncated == Choose(opts, old(lastSeen), cycle, input).truncated
      ensures lastSeen == Remember(opts, old(lastSeen), cycle, input)
      ensures forall i, j :: 0 <= i < j < |kept| ==>
        || kept[i].primary > kept[j].primary
        || (kept[i].primary == kept[j].primary && StringLess(kept[i].key, kept[j].key))
    {
      if |input| == 0 {
        EmptyInput(opts, lastSeen, cycle);
        return [], false;
      }
      var leading := MarkFresh(input, opts.topN);
      kept, truncated := Report(cycle, input, leading);
      lastSeen := MarkSeen(lastSeen, leading, cycle);
    }

    method Report(cycle: nat, input: seq<Candidate>, leading: set<string>)
      returns (kept: seq<Candidate>, truncated: bool)
      requires opts.maxKeys >= 0 && leading <= Keys(input)
      ensures Lists(kept, Decide(opts, lastSeen, cycle, input, leading).kept)
      ensures truncated == Decide(opts, lastSeen, cycle, input, leading).truncated
    {
      hide ByKey, RetainedKeys, Picked, Cut, Lists;
      var byKey := IndexByKey(input);
      var threshold := OldestKept(cycle);
      var retained := Retain(input, leading, lastSeen, threshold);
      RetainedKnown(input, leading, lastSeen, threshold);
      kept, truncated := Fit(leading, retained, byKey);
    }

    /** The first cycle within the window. */
    method OldestKept(cycle: nat) returns (threshold: nat)
      ensures threshold == Threshold(opts, cycle)
    {
      var window := opts.hysteresis % WORD;
      threshold := if cycle > window then cycle - window else 0;
    }

    /** Lists the fresh and the retained candidates and cuts them to the cap. */
    method Fit(leading: set<string>, retained: set<string>, byKey: map<string, Candidate>)
      returns (kept: seq<Candidate>, truncated: bool)
      requires opts.maxKeys >= 0 && leading <= byKey.Keys && retained <= byKey.Keys && leading !! retained
      requires forall k :: k in byKey ==> byKey[k].key == k
      ensures var a, b := Picked(leading, byKey), Picked(retained, byKey);
              Lists(kept, Cut(a, b, opts.maxKeys)) && truncated == (|a| + |b| > opts.maxKeys)
    {
      var freshList := Collect(leading, byKey);
      var retainedList := Collect(retained, byKey);
      PickedKeys(freshList, leading, byKey);
      PickedKeys(retainedList, retained, byKey);
      freshList := SortByRank(freshList);
      retainedList := SortByRank(retainedList);
      ghost var a, b := freshList, retainedList;
      assert Keys(a) == leading && Keys(b) == retained by {
        PickedKeys(a, leading, byKey);
        PickedKeys(b, retained, byKey);
      }
      truncated := false;
      if |freshList| + |retainedList| > opts.maxKeys {
        truncated := true;
        if |freshList| > opts.maxKeys {
          freshList := freshList[..opts.maxKeys];
          retainedList := [];
        } else {
          retainedList := retainedList[..opts.maxKeys - |freshList|];
        }
      }
      CutLists(a, b, opts.maxKeys, freshList, retainedList);
      kept := SortByRank(freshList + retainedList);
    }

    /** Drops what no later cycle can retain. */
    method Forget(cycle: nat) returns (removed: nat)
      modifies this
      ensures lastSeen == Forgotten(opts, old(lastSeen), cycle) && removed == |old(lastSeen)| - |lastSeen|
    {
      var window := opts.hysteresis % WORD;
      if cycle <= window {
        assert Forgotten(opts, lastSeen, cycle) == lastSeen;
        return 0;
      }
      var threshold := cycle - window;
      removed := 0;
      var left, kept := lastSeen.Keys, lastSeen;
      while left != {}
        invariant left <= lastSeen.Keys && left <= kept.Keys <= lastSeen.Keys
        invariant forall k :: k in kept ==> kept[k] == lastSeen[k]
        invariant forall k :: k in lastSeen && k !in left ==> (k in kept <==> lastSeen[k] >= threshold)
        invariant removed == |lastSeen| - |kept|
        decreases |left|
      {
        var k :| k in left;
        if kept[k] < threshold {
          assert (kept - {k}).Keys == kept.Keys - {k};
          kept := kept - {k};
          removed := removed + 1;
        }
        left := left - {k};
      }
      assert kept == Forgotten(opts, lastSeen, cycle);
      lastSeen := kept;
    }
  }

  method MarkSeen(history: History, keys: set<string>, cycle: nat) returns (out: History)
    ensures out == Seen(history, keys, cycle)
  {
    out := history;
    var left := keys;
    assert history == Seen(history, {}, cycle);
    assert keys - left == {};
    while left != {}
      invariant left <= keys && out == Seen(history, keys - left, cycle)
      decreases |left|
    {
      var k :| k in left;
      assert keys - (left - {k}) == keys - left + {k};
      SeenOneMore(history, keys - left, k, cycle);
      out := out[k := cycle];
      left := left - {k};
    }
    assert keys - left == keys;
  }

  lemma SeenOneMore(history: History, keys: set<string>, k: string, cycle: nat)
    ensures Seen(history, keys + {k}, cycle) == Seen(history, keys, cycle)[k := cycle]
  {
    var a, b := Seen(history, keys + {k}, cycle), Seen(history, keys, cycle)[k := cycle];
    assert a.Keys == b.Keys;
  }

  // ---- what the choice means ----

  /** The candidates in the top n of either ranking. */
  function Leaders(all: set<Candidate>, n: int): set<Candidate> {
    Top(Primary, all, n) + Top(Secondary, all, n)
  }

  function Kept(all: set<Candidate>, leaders: set<Candidate>, history: History, threshold: nat): set<Candidate> {
    set c | c in all && c !in leaders && c.key in history && history[c.key] >= threshold
  }

  lemma TopKeysAre(r: Ranking, input: seq<Candidate>, n: int)
    requires Unique(input)
    ensures forall c :: c in input ==> (c.key in TopKeys(r, input, n) <==> c in Top(r, Elems(input), n))
    ensures |Top(r, Elems(input), n)| == Clamp(n, |input|)
  {
    var sorted := Sort(input, Order(r));
    Ordered(r, input);
    SortSorted(input, Order(r));
    SortedOnce(input, sorted);
    assert Elems(sorted) == Elems(input);
    HeadIsTop(r, sorted, n);
    var head := sorted[..Clamp(n, |input|)];
    SizeOfUnique(head);
    forall c | c in input && c.key in Keys(head) ensures c in head {
      var d :| d in head && d.key == c.key;
      assert d in sorted;
      KeyNames(input, c, d);
    }
    assert forall c :: c in head <==> c in Elems(head);
  }

  lemma {:induction false} ByKeyIs(input: seq<Candidate>, c: Candidate)
    requires Unique(input) && c in input
    ensures c.key in ByKey(input) && ByKey(input)[c.key] == c
  {
    assert c.key in Keys(input);
    KeyNames(input, c, ByKey(input)[c.key]);
  }

  /** Picking by key picks the candidates themselves. */
  lemma PickedAre(input: seq<Candidate>, keys: set<string>, all: set<Candidate>)
    requires Unique(input) && all <= Elems(input) && keys <= Keys(input)
    requires forall c :: c in input ==> (c.key in keys <==> c in all)
    ensures Picked(keys, ByKey(input)) == all
  {
    forall c | c in input ensures c.key in ByKey(input) && ByKey(input)[c.key] == c { ByKeyIs(input, c); }
  }

  lemma DecideExact(o: Options, history: History, cycle: nat, input: seq<Candidate>, keys: set<string>,
                    leaders: set<Candidate>)
    requires Unique(input) && keys <= Keys(input) && leaders <= Elems(input)
    requires forall c :: c in input ==> (c.key in keys <==> c in leaders)
    ensures var kept := Kept(Elems(input), leaders, history, Threshold(o, cycle));
            Decide(o, history, cycle, input, keys) == Answer(Cut(leaders, kept, o.maxKeys),
              |leaders| + |kept| > o.maxKeys)
  {
    var threshold := Threshold(o, cycle);
    var retained := RetainedKeys(input, keys, history, threshold);
    var kept := Kept(Elems(input), leaders, history, threshold);
    PickedAre(input, keys, leaders);
    forall c | c in input && c.key in retained ensures c in kept {
      var d :| d in input && d.key == c.key && d.key !in keys;
      KeyNames(input, c, d);
    }
    PickedAre(input, retained, kept);
  }

  function KeysOf(cs: set<Candidate>): set<string> {
    set c | c in cs :: c.key
  }

  lemma FreshAre(input: seq<Candidate>, n: int)
    requires Unique(input)
    ensures var keys, leaders := FreshKeys(input, n), Leaders(Elems(input), n);
            && keys == KeysOf(leaders) && keys <= Keys(input) && leaders <= Elems(input)
            && forall c :: c in input ==> (c.key in keys <==> c in leaders)
  {
    FreshKeysKnown(input, n);
    TopKeysAre(Primary, input, n);
    TopKeysAre(Secondary, input, n);
    NamedBy(input, FreshKeys(input, n), Leaders(Elems(input), n));
  }

  lemma NamedBy(input: seq<Candidate>, keys: set<string>, cs: set<Candidate>)
    requires keys <= Keys(input) && cs <= Elems(input) && forall c :: c in input ==> (c.key in keys <==> c in cs)
    ensures keys == KeysOf(cs)
  {
    forall k | k in keys ensures k in KeysOf(cs) {
      var c :| c in input && c.key == k;
      assert c in cs;
    }
    forall c | c in cs ensures c.key in keys { assert c in input; }
  }

  /**
    With distinct keys the answer is a matter of the set of candidates alone: the leaders of both
    rankings, and the others that were fresh within the window, cut to the cap.
  */
  lemma ChooseExact(o: Options, history: History, cycle: nat, input: seq<Candidate>)
    requires Unique(input)
    ensures var leaders := Leaders(Elems(input), o.topN);
            var kept := Kept(Elems(input), leaders, history, Threshold(o, cycle));
            && Choose(o, history, cycle, input) == Answer(Cut(leaders, kept, o.maxKeys), |leaders| + |kept| > o.maxKeys)
            && Remember(o, history, cycle, input) == Seen(history, KeysOf(leaders), cycle)
  {
    FreshAre(input, o.topN);
    DecideExact(o, history, cycle, input, FreshKeys(input, o.topN), Leaders(Elems(input), o.topN));
  }

  /** An answer does not depend on the order of the input. */
  lemma OrderDoesNotMatter(o: Options, history: History, cycle: nat, a: seq<Candidate>, b: seq<Candidate>)
    requires Unique(a) && Unique(b) && Elems(a) == Elems(b)
    ensures Choose(o, history, cycle, a) == Choose(o, history, cycle, b)
    ensures Remember(o, history, cycle, a) == Remember(o, history, cycle, b)
  {
    ChooseExact(o, history, cycle, a);
    ChooseExact(o, history, cycle, b);
  }

  lemma TopSize(r: Ranking, input: seq<Candidate>, n: int)
    requires Unique(input)
    ensures |Top(r, Elems(input), n)| <= if n < 0 then 0 else n
  {
    TopKeysAre(r, input, n);
  }

  lemma LeadersSize(input: seq<Candidate>, n: int)
    requires Unique(input)
    ensures |Leaders(Elems(input), n)| <= if n < 0 then 0 else 2 * n
  {
    TopSize(Primary, input, n);
    TopSize(Secondary, input, n);
    UnionSize(Top(Primary, Elems(input), n), Top(Secondary, Elems(input), n));
  }

  lemma UnionSize<T>(a: set<T>, b: set<T>)
    ensures |a + b| <= |a| + |b|
  {
    assert a + b == a + (b - a);
  }

  /**
    Under a cap left to its default every leader is kept, only retained candidates are cut, and
    anything is cut exactly when the two together exceed the cap.
  */
  lemma DefaultCapKeepsLeaders(configured: Options, history: History, cycle: nat, input: seq<Candidate>)
    requires Unique(input) && configured.maxKeys == 0
    ensures var o := Defaults(configured);
            var leaders := Leaders(Elems(input), o.topN);
            var retained := Kept(Elems(input), leaders, history, Threshold(o, cycle));
            var answer := Choose(o, history, cycle, input);
            && leaders <= answer.kept <= leaders + retained
            && (answer.truncated <==> |leaders| + |retained| > o.maxKeys)
            && (answer.truncated <==> answer.kept != leaders + retained)
  {
    var o := Defaults(configured);
    var leaders := Leaders(Elems(input), o.topN);
    var retained := Kept(Elems(input), leaders, history, Threshold(o, cycle));
    ChooseExact(o, history, cycle, input);
    LeadersSize(input, o.topN);
    CutKeeps(leaders, retained, input, o.maxKeys);
  }

  lemma CutKeeps(leaders: set<Candidate>, retained: set<Candidate>, input: seq<Candidate>, cap: int)
    requires Unique(input) && retained <= Elems(input) && leaders !! retained && |leaders| <= cap
    ensures leaders <= Cut(leaders, retained, cap) <= leaders + retained
    ensures |leaders| + |retained| > cap <==> Cut(leaders, retained, cap) != leaders + retained
  {
    if |leaders| + |retained| > cap {
      CutIsProper(leaders, retained, input, cap - |leaders|);
    }
  }

  lemma CutIsProper(leaders: set<Candidate>, retained: set<Candidate>, input: seq<Candidate>, n: nat)
    requires Unique(input) && retained <= Elems(input) && leaders !! retained && n < |retained|
    ensures leaders + Top(Primary, retained, n) != leaders + retained
  {
    SubsetTopSize(input, retained, n);
    var c :| c in retained - Top(Primary, retained, n);
    assert c in leaders + retained && c !in leaders + Top(Primary, retained, n);
  }

  lemma SubsetTopSize(input: seq<Candidate>, wanted: set<Candidate>, n: nat)
    requires Unique(input) && wanted <= Elems(input) && n < |wanted|
    ensures |Top(Primary, wanted, n)| <= n && wanted - Top(Primary, wanted, n) != {}
  {
    FilteredIs(input, wanted);
    var list := Filtered(input, wanted);
    assert Elems(list) == wanted;
    TopSize(Primary, list, n);
    var top := Top(Primary, wanted, n);
    assert wanted == top + (wanted - top);
  }

  function Filtered(input: seq<Candidate>, wanted: set<Candidate>): seq<Candidate> {
    if input == [] then [] else (if input[0] in wanted then [input[0]] else []) + Filtered(input[1..], wanted)
  }

  lemma {:induction false} FilteredIs(input: seq<Candidate>, wanted: set<Candidate>)
    requires Unique(input)
    ensures Unique(Filtered(input, wanted)) && forall c :: c in Filtered(input, wanted) <==> c in input && c in wanted
  {
    if input != [] {
      var rest := Filtered(input[1..], wanted);
      FilteredIs(input[1..], wanted);
      forall i | 0 <= i < |rest| ensures rest[i].key != input[0].key {
        assert rest[i] in input[1..];
      }
    }
  }

  // ---- what is kept, candidate by candidate ----

  /** How many candidates have a larger first metric, or the same one and a lower key. */
  function PrimaryRank(input: seq<Candidate>, c: Candidate): nat {
    |set d | d in input && (d.primary > c.primary || (d.primary == c.primary && StringLess(d.key, c.key)))|
  }

  function SecondaryRank(input: seq<Candidate>, c: Candidate): nat {
    |set d | d in input && (d.secondary > c.secondary || (d.secondary == c.secondary && StringLess(d.key, c.key)))|
  }

  /** The candidate leads in one of the two metrics. */
  predicate LeadsIn(input: seq<Candidate>, c: Candidate, n: int) {
    PrimaryRank(input, c) < n || SecondaryRank(input, c) < n
  }

  /** The key was fresh within the window. */
  predicate FreshSince(o: Options, history: History, cycle: nat, key: string) {
    key in history && history[key] + o.hysteresis >= cycle
  }

  lemma LeadersAre(input: seq<Candidate>, c: Candidate, n: int)
    requires c in input
    ensures c in Leaders(Elems(input), n) <==> LeadsIn(input, c, n)
  {
    assert Ahead(Primary, c, Elems(input)) ==
      set d | d in input && (d.primary > c.primary || (d.primary == c.primary && StringLess(d.key, c.key)));
    assert Ahead(Secondary, c, Elems(input)) ==
      set d | d in input && (d.secondary > c.secondary || (d.secondary == c.secondary && StringLess(d.key, c.key)));
  }

  lemma KeptAre(o: Options, all: set<Candidate>, leaders: set<Candidate>, history: History, cycle: nat, c: Candidate)
    requires c in all && c !in leaders && 0 <= o.hysteresis < WORD
    ensures c in Kept(all, leaders, history, Threshold(o, cycle)) <==> FreshSince(o, history, cycle, c.key)
  {}

  lemma SeenOf(input: seq<Candidate>, leaders: set<Candidate>, history: History, cycle: nat, c: Candidate)
    requires Unique(input) && c in input && leaders <= Elems(input)
    ensures var after := Seen(history, KeysOf(leaders), cycle);
            if c in leaders then c.key in after && after[c.key] == cycle
            else (c.key in after <==> c.key in history) && (c.key in history ==> after[c.key] == history[c.key])
  {
    if c.key in KeysOf(leaders) {
      var d :| d in leaders && d.key == c.key;
      KeyNames(input, c, d);
    }
  }

  lemma LeadersKnown(input: seq<Candidate>, n: int)
    ensures Leaders(Elems(input), n) <= Elems(input)
  {}

  /**
    Where the cap cuts nothing, a candidate is kept if and only if fewer than `topN` are ahead of it in
    one of the metrics, or it was so at most `hysteresis` cycles ago; and it is remembered as fresh if
    and only if the former is so now.
  */
  lemma KeptExactly(o: Options, history: History, cycle: nat, input: seq<Candidate>, c: Candidate)
    requires Unique(input) && c in input && 0 <= o.hysteresis < WORD && !Choose(o, history, cycle, input).truncated
    ensures c in Choose(o, history, cycle, input).kept <==>
      LeadsIn(input, c, o.topN) || FreshSince(o, history, cycle, c.key)
    ensures var after := Remember(o, history, cycle, input);
            if LeadsIn(input, c, o.topN) then c.key in after && after[c.key] == cycle
            else (c.key in after <==> c.key in history) && (c.key in history ==> after[c.key] == history[c.key])
  {
    hide Choose, Remember, Leaders, LeadsIn, FreshSince, Kept, Threshold, Seen, KeysOf;
    ChooseExact(o, history, cycle, input);
    LeadersAre(input, c, o.topN);
    LeadersKnown(input, o.topN);
    var leaders := Leaders(Elems(input), o.topN);
    SeenOf(input, leaders, history, cycle, c);
    if c !in leaders { KeptAre(o, Elems(input), leaders, history, cycle, c); }
  }

  /** Of two candidates that do not lead, the cap leaves the one with the larger first metric. */
  lemma CutByRank(o: Options, history: History, cycle: nat, input: seq<Candidate>, c: Candidate, d: Candidate)
    requires Unique(input) && c in input && d in input && !LeadsIn(input, c, o.topN) && !LeadsIn(input, d, o.topN)
    requires FreshSince(o, history, cycle, d.key) && 0 <= o.hysteresis < WORD
    requires c in Choose(o, history, cycle, input).kept && d !in Choose(o, history, cycle, input).kept
    ensures c.primary > d.primary || (c.primary == d.primary && StringLess(c.key, d.key))
  {
    var leaders := Leaders(Elems(input), o.topN);
    var kept := Kept(Elems(input), leaders, history, Threshold(o, cycle));
    assert Before(Primary, c, d) by {
      hide Choose, Remember, Leaders, LeadsIn, FreshSince, Kept, Threshold, Before;
      ChooseExact(o, history, cycle, input);
      LeadersAre(input, c, o.topN);
      LeadersAre(input, d, o.topN);
      KeptAre(o, Elems(input), leaders, history, cycle, d);
      if c.key == d.key { KeyNames(input, c, d); }
      RankOrder(kept, c, d, o.maxKeys - |leaders|);
    }
  }

  /** A candidate among the first n is ahead of one that is not. */
  lemma RankOrder(all: set<Candidate>, c: Candidate, d: Candidate, n: int)
    requires c in Top(Primary, all, n) && d in all && d !in Top(Primary, all, n)
    requires c.key != d.key
    ensures Before(Primary, c, d)
  {
    BeforeOrder(Primary, c, d);
    if Before(Primary, d, c) {
      forall x | x in Ahead(Primary, d, all) ensures x in Ahead(Primary, c, all) { BeforeTransitive(Primary, x, d, c); }
      SubsetSize(Ahead(Primary, d, all), Ahead(Primary, c, all));
    }
  }
}
