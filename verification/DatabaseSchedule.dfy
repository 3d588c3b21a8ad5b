/** Which databases a target's checks run for: the budget's choice, made to stick. */
module DatabaseSchedule {
  import opened Basics
  import opened Sorting

  datatype Row = Row(name: string, commits: int)

  datatype Database = Database(name: string, monitored: bool, skipReason: string)

  // ---- the budget's choice ----

  predicate Matches(patterns: seq<string -> bool>, name: string) {
    exists i :: 0 <= i < |patterns| && patterns[i](name)
  }

  predicate Eligible(include_: seq<string -> bool>, exclude: seq<string -> bool>, name: string) {
    !Matches(exclude, name) && (|include_| > 0 ==> Matches(include_, name))
  }

  function EligibleRows(rows: seq<Row>, include_: seq<string -> bool>, exclude: seq<string -> bool>): seq<Row> {
    if rows == [] then []
    else
      EligibleRows(rows[..|rows| - 1], include_, exclude)
      + if Eligible(include_, exclude, rows[|rows| - 1].name) then [rows[|rows| - 1]] else []
  }

  /** Busier first, then by name. */
  predicate Busier(a: Row, b: Row) {
    a.commits > b.commits || (a.commits == b.commits && StringLess(a.name, b.name))
  }

  function Verdicts(sorted: seq<Row>, limit: int): (dbs: seq<Database>)
    ensures |dbs| == |sorted|
    ensures forall i :: 0 <= i < |dbs| ==>
      dbs[i] == Database(sorted[i].name, i < limit, if i < limit then "" else "db_budget")
  {
    seq(|sorted|, i requires 0 <= i < |sorted| =>
      Database(sorted[i].name, i < limit, if i < limit then "" else "db_budget"))
  }

  function Selected(rows: seq<Row>, include_: seq<string -> bool>, exclude: seq<string -> bool>,
                    limit: int): seq<Database> {
    Verdicts(Sort(EligibleRows(rows, include_, exclude), Busier), limit)
  }

  method AnyMatch(patterns: seq<string -> bool>, name: string) returns (found: bool)
    ensures found == Matches(patterns, name)
  {
    for i := 0 to |patterns|
      invariant forall j :: 0 <= j < i ==> !patterns[j](name)
    {
      if patterns[i](name) {
        return true;
      }
    }
    return false;
  }

  method FilterRows(rows: seq<Row>, include_: seq<string -> bool>,
                    exclude: seq<string -> bool>) returns (filtered: seq<Row>)
    ensures filtered == EligibleRows(rows, include_, exclude)
  {
    filtered := [];
    for i := 0 to |rows|
      invariant filtered == EligibleRows(rows[..i], include_, exclude)
    {
      assert rows[..i + 1][..i] == rows[..i];
      var skip := AnyMatch(exclude, rows[i].name);
      if !skip && |include_| > 0 {
        var included := AnyMatch(include_, rows[i].name);
        skip := !included;
      }
      if !skip {
        filtered := filtered + [rows[i]];
      }
    }
    assert rows[..|rows|] == rows;
  }

  method Judge(sorted: seq<Row>, limit: int) returns (result: seq<Database>)
    ensures result == Verdicts(sorted, limit)
  {
    result := [];
    for i := 0 to |sorted|
      invariant result == Verdicts(sorted, limit)[..i]
    {
      if |sorted| <= limit || i < limit {
        result := result + [Database(sorted[i].name, true, "")];
      } else {
        result := result + [Database(sorted[i].name, false, "db_budget")];
      }
    }
  }

  method SelectDatabases(rows: seq<Row>, include_: seq<string -> bool>, exclude: seq<string -> bool>, limit: int)
    returns (result: seq<Database>)
    ensures result == Selected(rows, include_, exclude, limit)
  {
    var filtered := FilterRows(rows, include_, exclude);
    result := Judge(Sort(filtered, Busier), limit);
  }

  // ---- counting ----

  function Names(dbs: seq<Database>): set<string> {
    set db | db in dbs :: db.name
  }

  function Monitored(dbs: seq<Database>): set<string> {
    set db | db in dbs && db.monitored :: db.name
  }

  predicate Distinct(dbs: seq<Database>) {
    forall i, j :: 0 <= i < j < |dbs| ==> dbs[i].name != dbs[j].name
  }

  function Slots(dbs: seq<Database>): nat {
    if dbs == [] then 0 else Slots(dbs[..|dbs| - 1]) + if dbs[|dbs| - 1].monitored then 1 else 0
  }

  lemma OneMore(front: seq<Database>, last: Database)
    ensures Names(front + [last]) == Names(front) + {last.name}
    ensures Monitored(front + [last]) == Monitored(front) + (if last.monitored then {last.name} else {})
    ensures Slots(front + [last]) == Slots(front) + if last.monitored then 1 else 0
    ensures Monitored(front) <= Names(front)
  {
    assert (front + [last])[..|front|] == front;
    assert forall db :: db in front + [last] <==> db in front || db == last;
  }

  lemma {:induction false} SlotsCount(dbs: seq<Database>)
    requires Distinct(dbs)
    ensures |Monitored(dbs)| == Slots(dbs) && |Names(dbs)| == |dbs|
  {
    if dbs != [] {
      var front, last := dbs[..|dbs| - 1], dbs[|dbs| - 1];
      assert dbs == front + [last];
      SlotsCount(front);
      OneMore(front, last);
      assert last.name !in Names(front);
    }
  }

  lemma {:induction false} PrefixSlots(dbs: seq<Database>, limit: int)
    requires forall i :: 0 <= i < |dbs| ==> dbs[i].monitored == (i < limit)
    ensures Slots(dbs) == Clamp(limit, |dbs|)
  {
    if dbs != [] {
      PrefixSlots(dbs[..|dbs| - 1], limit);
    }
  }

  // ---- the set that is kept ----

  function Fill(next: set<string>, dbs: seq<Database>, slots: nat): set<string>
    decreases |dbs|
  {
    if dbs == [] || |next| >= slots then next
    else Fill(if dbs[0].monitored then next + {dbs[0].name} else next, dbs[1..], slots)
  }

  /** What stays while it is listed, and then the busiest monitored ones while there is room. */
  function Keep(last: set<string>, discovered: seq<Database>): set<string> {
    Fill(last * Names(discovered), discovered, Slots(discovered))
  }

  method CountSlots(discovered: seq<Database>) returns (listed: set<string>, slots: nat)
    ensures listed == Names(discovered) && slots == Slots(discovered)
  {
    listed, slots := {}, 0;
    for i := 0 to |discovered|
      invariant listed == Names(discovered[..i]) && slots == Slots(discovered[..i])
    {
      assert discovered[..i + 1] == discovered[..i] + [discovered[i]];
      OneMore(discovered[..i], discovered[i]);
      listed := listed + {discovered[i].name};
      if discovered[i].monitored {
        slots := slots + 1;
      }
    }
    assert discovered[..|discovered|] == discovered;
  }

  method StillListed(last: set<string>, listed: set<string>) returns (next: set<string>)
    ensures next == last * listed
  {
    next := {};
    var left := last;
    while left != {}
      invariant left <= last && next == (last - left) * listed
      decreases |left|
    {
      var name :| name in left;
      if name in listed {
        next := next + {name};
      }
      left := left - {name};
    }
  }

  method FillSlots(start: set<string>, discovered: seq<Database>, slots: nat) returns (next: set<string>)
    ensures next == Fill(start, discovered, slots)
  {
    next := start;
    var i := 0;
    while i < |discovered|
      invariant 0 <= i <= |discovered| && Fill(next, discovered[i..], slots) == Fill(start, discovered, slots)
    {
      if |next| >= slots {
        return;
      }
      assert discovered[i..][1..] == discovered[i + 1..];
      if discovered[i].monitored {
        next := next + {discovered[i].name};
      }
      i := i + 1;
    }
  }

  method KeepDatabases(last: set<string>, discovered: seq<Database>) returns (next: set<string>)
    ensures next == Keep(last, discovered)
  {
    var listed, slots := CountSlots(discovered);
    next := StillListed(last, listed);
    next := FillSlots(next, discovered, slots);
  }

  /** Filling keeps what is there, takes only monitored databases, and fills every slot. */
  lemma {:induction false} FillExact(next: set<string>, dbs: seq<Database>, slots: nat)
    ensures next <= Fill(next, dbs, slots) <= next + Monitored(dbs)
    ensures |next| <= slots ==> |Fill(next, dbs, slots)| <= slots
    ensures |next| >= slots ==> Fill(next, dbs, slots) == next
    ensures |Fill(next, dbs, slots)| < slots ==> Monitored(dbs) <= Fill(next, dbs, slots)
    decreases |dbs|
  {
    if dbs != [] && |next| < slots {
      var more := if dbs[0].monitored then next + {dbs[0].name} else next;
      FillExact(more, dbs[1..], slots);
      assert dbs == [dbs[0]] + dbs[1..];
      assert Monitored(dbs) == Monitored(dbs[1..]) + (if dbs[0].monitored then {dbs[0].name} else {});
    }
  }

  /** A database that comes in does so after every monitored one that is listed before it. */
  predicate InOrder(last: set<string>, discovered: seq<Database>, next: set<string>) {
    forall i, j | 0 <= i < j < |discovered| && discovered[i].monitored ::
      discovered[j].name in next && discovered[j].name !in last ==> discovered[i].name in next
  }

  /** A slot goes to a monitored database only when all monitored ones listed before it are scheduled. */
  lemma {:induction false} FillInOrder(next: set<string>, dbs: seq<Database>, slots: nat, i: nat, j: nat)
    requires i < j < |dbs| && dbs[i].monitored && dbs[j].name in Fill(next, dbs, slots) && dbs[j].name !in next
    requires Distinct(dbs)
    ensures dbs[i].name in Fill(next, dbs, slots)
    decreases |dbs|
  {
    if |next| < slots {
      var more := if dbs[0].monitored then next + {dbs[0].name} else next;
      FillExact(more, dbs[1..], slots);
      assert dbs[j].name !in more;
      if i > 0 { FillInOrder(more, dbs[1..], slots, i - 1, j - 1); }
    }
  }

  /**
    From any set that is within the budget, every slot is filled, each scheduled database that is
    still listed stays, and only monitored ones come in, in the order of the listing.
  */
  lemma KeepExact(last: set<string>, discovered: seq<Database>)
    requires Distinct(discovered) && |last * Names(discovered)| <= Slots(discovered)
    ensures var next := Keep(last, discovered);
            && |next| == Slots(discovered)
            && last * Names(discovered) <= next <= last * Names(discovered) + Monitored(discovered)
            && InOrder(last, discovered, next)
  {
    forall i, j | 0 <= i < j < |discovered| && discovered[i].monitored
      && discovered[j].name in Keep(last, discovered) && discovered[j].name !in last
      ensures discovered[i].name in Keep(last, discovered)
    {
      FillInOrder(last * Names(discovered), discovered, Slots(discovered), i, j);
    }
    var slots := Slots(discovered);
    FillExact(last * Names(discovered), discovered, slots);
    SlotsCount(discovered);
    if |Keep(last, discovered)| < slots {
      SubsetSize(Monitored(discovered), Keep(last, discovered));
    }
  }

  // ---- the budget's choice, exactly ----

  predicate DistinctRows(rows: seq<Row>) {
    forall i, j :: 0 <= i < j < |rows| ==> rows[i].name != rows[j].name
  }

  lemma {:induction false} EligibleRowsAre(rows: seq<Row>, include_: seq<string -> bool>, exclude: seq<string -> bool>)
    requires DistinctRows(rows)
    ensures DistinctRows(EligibleRows(rows, include_, exclude))
    ensures forall r :: r in EligibleRows(rows, include_, exclude) <==> r in rows && Eligible(include_, exclude, r.name)
  {
    if rows != [] {
      var front, last := rows[..|rows| - 1], rows[|rows| - 1];
      assert rows == front + [last];
      EligibleRowsAre(front, include_, exclude);
      var kept := EligibleRows(front, include_, exclude);
      forall i | 0 <= i < |kept| ensures kept[i].name != last.name { assert kept[i] in front; }
    }
  }

  lemma RowsOrdered(rows: seq<Row>)
    requires DistinctRows(rows)
    ensures StrictTotalOn(Busier, rows)
  {
    forall x, y | x in rows && y in rows && x != y ensures x.name != y.name {
      var i :| 0 <= i < |rows| && rows[i] == x;
      var j :| 0 <= j < |rows| && rows[j] == y;
    }
    forall x, y ensures !(Busier(x, y) && Busier(y, x)) && (x.name != y.name ==> Busier(x, y) || Busier(y, x)) {
      StringLessTrichotomy(x.name, y.name);
    }
    forall x, y, z | Busier(x, y) && Busier(y, z) ensures Busier(x, z) {
      if StringLess(x.name, y.name) && StringLess(y.name, z.name) {
        StringLessTransitive(x.name, y.name, z.name);
      }
    }
  }

  lemma SortedRows(rows: seq<Row>, sorted: seq<Row>)
    requires DistinctRows(rows) && multiset(rows) == multiset(sorted) && forall r :: r in sorted <==> r in rows
    ensures DistinctRows(sorted)
  {
    NoDuplicatesPermuted(rows, sorted);
    forall i, j | 0 <= i < j < |sorted| ensures sorted[i].name != sorted[j].name {
      assert sorted[i] in rows && sorted[j] in rows;
    }
  }

  /** A listing in which the first `limit` databases are the monitored ones. */
  predicate Budgeted(dbs: seq<Database>, limit: int) {
    Distinct(dbs) && forall i :: 0 <= i < |dbs| ==> dbs[i].monitored == (i < limit)
  }

  /**
    The listing holds exactly the eligible databases; as many as the budget allows are monitored; and
    each of those is busier than each of the others.
  */
  lemma SelectedExact(rows: seq<Row>, include_: seq<string -> bool>, exclude: seq<string -> bool>, limit: int)
    requires DistinctRows(rows)
    ensures var dbs := Selected(rows, include_, exclude, limit);
            && Budgeted(dbs, limit) && Slots(dbs) == Clamp(limit, |dbs|)
            && (forall name :: name in Names(dbs) <==>
                  && (exists r :: r in rows && r.name == name)
                  && (forall p :: p in exclude ==> !p(name))
                  && (include_ == [] || exists p :: p in include_ && p(name)))
            && forall a, b :: a in rows && b in rows ==>
                 a.name in Monitored(dbs) && b.name in Names(dbs) - Monitored(dbs) ==>
                   a.commits > b.commits || (a.commits == b.commits && StringLess(a.name, b.name))
  {
    forall name ensures Eligible(include_, exclude, name) <==>
      (forall p :: p in exclude ==> !p(name)) && (include_ == [] || exists p :: p in include_ && p(name))
    {
      MatchesIs(exclude, name);
      MatchesIs(include_, name);
    }
    var eligible := EligibleRows(rows, include_, exclude);
    var sorted := Sort(eligible, Busier);
    EligibleRowsAre(rows, include_, exclude);
    RowsOrdered(eligible);
    SortSorted(eligible, Busier);
    SortedRows(eligible, sorted);
    var dbs := Verdicts(sorted, limit);
    PrefixSlots(dbs, limit);
    ListedAre(rows, sorted, dbs, limit);
    assert forall r :: r in sorted <==> r in rows && Eligible(include_, exclude, r.name);
  }

  lemma MatchesIs(patterns: seq<string -> bool>, name: string)
    ensures Matches(patterns, name) <==> exists p :: p in patterns && p(name)
  {
    if p :| p in patterns && p(name) {
      var i :| 0 <= i < |patterns| && patterns[i] == p;
    }
    if i :| 0 <= i < |patterns| && patterns[i](name) {
      assert patterns[i] in patterns;
    }
  }

  lemma ListedAre(rows: seq<Row>, sorted: seq<Row>, dbs: seq<Database>, limit: int)
    requires DistinctRows(rows) && DistinctRows(sorted) && dbs == Verdicts(sorted, limit) && SortedBy(Busier, sorted)
    requires forall r :: r in sorted ==> r in rows
    ensures Distinct(dbs) && forall name :: name in Names(dbs) <==> exists r :: r in sorted && r.name == name
    ensures forall a, b :: a in rows && b in rows ==>
      a.name in Monitored(dbs) && b.name in Names(dbs) - Monitored(dbs) ==> Busier(a, b)
  {
    forall name | exists r :: r in sorted && r.name == name ensures name in Names(dbs) {
      var i :| 0 <= i < |sorted| && sorted[i].name == name;
      assert dbs[i] in dbs;
    }
    forall a, b | a in rows && b in rows && a.name in Monitored(dbs) && b.name in Names(dbs) - Monitored(dbs)
      ensures Busier(a, b)
    {
      var i :| 0 <= i < |dbs| && dbs[i].name == a.name && dbs[i].monitored;
      var j :| 0 <= j < |dbs| && dbs[j].name == b.name && !dbs[j].monitored;
      RowNamed(rows, a, sorted[i]);
      RowNamed(rows, b, sorted[j]);
    }
  }

  lemma RowNamed(rows: seq<Row>, a: Row, b: Row)
    requires DistinctRows(rows) && a in rows && b in rows && a.name == b.name
    ensures a == b
  {
    var i :| 0 <= i < |rows| && rows[i] == a;
    var j :| 0 <= j < |rows| && rows[j] == b;
  }

  // ---- gates ----

  /** What a target's checks are gated on. `facts` stands for its role, version and permission tier. */
  datatype Gate = Gate(facts: string, exts: map<string, bool>, databases: set<string>, discovered: seq<Database>,
                       statementsUnknown: bool)

  const STATEMENTS := "pg_stat_statements"

  predicate SameKey(a: Gate, b: Gate) {
    a.facts == b.facts && a.exts == b.exts
  }

  /** What is known about pg_stat_statements when this read could not tell. */
  function WithStatements(read: Gate, last: Gate): Gate {
    if read.statementsUnknown
    then read.(exts := read.exts[STATEMENTS := STATEMENTS in last.exts && last.exts[STATEMENTS]])
    else read
  }

  function Adopted(last: Gate, seen: bool, read: Gate, readOk: bool): Gate {
    if !seen then read
    else if !readOk then last
    else WithStatements(read, last).(databases := Keep(last.databases, read.discovered))
  }

  method SameDatabases(a: set<string>, b: set<string>) returns (same: bool)
    ensures same == (a == b)
  {
    if |a| != |b| {
      return false;
    }
    var left := a;
    while left != {}
      invariant left <= a && a - left <= b
      decreases |left|
    {
      var name :| name in left;
      if name !in b {
        return false;
      }
      left := left - {name};
    }
    assert a <= b;
    SubsetSize(a, b);
    return true;
  }

  /** The gate that a target is scheduled against after one read, and whether to rebuild its schedule. */
  method NextGate(last: Gate, seen: bool, read: Gate, readOk: bool) returns (gate: Gate, rebuild: bool)
    ensures gate == Adopted(last, seen, read, readOk)
    ensures rebuild <==>
      !seen || gate.facts != last.facts || gate.exts != last.exts || gate.databases != last.databases
  {
    if !seen {
      return read, true;
    }
    if !readOk {
      return last, false;
    }
    gate := read;
    if read.statementsUnknown {
      gate := gate.(exts := gate.exts[STATEMENTS := STATEMENTS in last.exts && last.exts[STATEMENTS]]);
    }
    var next := KeepDatabases(last.databases, read.discovered);
    gate := gate.(databases := next);
    var same := SameDatabases(gate.databases, last.databases);
    rebuild := !SameKey(gate, last) || !same;
  }

  // ---- runs of reads ----

  datatype Read = Read(gate: Gate, ok: bool)

  datatype Reads = First(read: Read) | More(prev: Reads, read: Read)

  function GateAfter(history: Reads): Gate {
    match history
    case First(read) => read.gate
    case More(prev, read) => Adopted(GateAfter(prev), true, read.gate, read.ok)
  }

  /** Each read lists what the budget selects, and names the monitored databases. */
  predicate ReadOk(limit: int, read: Read) {
    Budgeted(read.gate.discovered, limit) && read.gate.databases == Monitored(read.gate.discovered)
  }

  predicate ValidReads(limit: int, history: Reads) {
    ReadOk(limit, history.read) && (history.More? ==> ValidReads(limit, history.prev))
  }

  function Cap(limit: int): nat {
    if limit < 0 then 0 else limit
  }

  lemma BudgetedSlots(dbs: seq<Database>, limit: int)
    requires Budgeted(dbs, limit)
    ensures Slots(dbs) == Clamp(limit, |dbs|) == |Monitored(dbs)| && |Names(dbs)| == |dbs|
    ensures Monitored(dbs) <= Names(dbs)
  {
    PrefixSlots(dbs, limit);
    SlotsCount(dbs);
  }

  /** A usable read, taken from a schedule within the budget. */
  lemma ReconcileExact(limit: int, last: set<string>, discovered: seq<Database>)
    requires Budgeted(discovered, limit) && |last| <= Cap(limit)
    ensures var next := Keep(last, discovered);
            && |next| == Clamp(limit, |discovered|) <= Cap(limit)
            && last * Names(discovered) <= next <= Names(discovered)
  {
    BudgetedSlots(discovered, limit);
    SubsetSize(last * Names(discovered), last);
    SubsetSize(last * Names(discovered), Names(discovered));
    KeepExact(last, discovered);
  }

  lemma {:induction false} WithinBudget(limit: int, history: Reads)
    requires ValidReads(limit, history)
    ensures |GateAfter(history).databases| <= Cap(limit)
  {
    BudgetedSlots(history.read.gate.discovered, limit);
    if history.More? {
      WithinBudget(limit, history.prev);
      ReconcileExact(limit, GateAfter(history.prev).databases, history.read.gate.discovered);
    }
  }

  /**
    Over every sequence of reads: after each usable one exactly as many databases are scheduled as the
    budget and the listing allow, and every scheduled one that is still listed stays.
  */
  lemma UsableReadFillsBudget(limit: int, history: Reads)
    requires ValidReads(limit, history) && history.read.ok
    ensures var dbs, next := history.read.gate.discovered, GateAfter(history).databases;
            && |next| == Clamp(limit, |dbs|) && next <= Names(dbs)
            && (history.More? ==> GateAfter(history.prev).databases * Names(dbs) <= next)
  {
    BudgetedSlots(history.read.gate.discovered, limit);
    if history.More? {
      WithinBudget(limit, history.prev);
      ReconcileExact(limit, GateAfter(history.prev).databases, history.read.gate.discovered);
    }
  }

  /** Ranking the same databases anew changes nothing: the same ones stay scheduled. */
  lemma ReRankingChangesNothing(limit: int, history: Reads, again: Read)
    requires ValidReads(limit, More(history, again)) && history.read.ok && again.ok
    requires Names(again.gate.discovered) == Names(history.read.gate.discovered)
    ensures GateAfter(More(history, again)).databases == GateAfter(history).databases
  {
    UsableReadFillsBudget(limit, history);
    UsableReadFillsBudget(limit, More(history, again));
    var before, after, names := GateAfter(history).databases, GateAfter(More(history, again)).databases,
      Names(again.gate.discovered);
    BudgetedSlots(again.gate.discovered, limit);
    BudgetedSlots(history.read.gate.discovered, limit);
    assert before * names == before;
    SubsetSize(before, after);
  }

  /** What a later read changes of the gate: nothing when it failed, and else all but what it could not tell. */
  lemma ReadIsAdopted(history: Reads)
    requires history.More?
    ensures var last, read, gate := GateAfter(history.prev), history.read.gate, GateAfter(history);
      && (!history.read.ok ==> gate == last)
      && (history.read.ok ==> gate.facts == read.facts && gate.discovered == read.discovered)
      && (history.read.ok && !read.statementsUnknown ==> gate.exts == read.exts)
      && (history.read.ok && read.statementsUnknown ==>
            && "pg_stat_statements" in gate.exts
            && (gate.exts["pg_stat_statements"] <==>
                  "pg_stat_statements" in last.exts && last.exts["pg_stat_statements"])
            && forall x :: x != "pg_stat_statements" ==>
                 (x in gate.exts <==> x in read.exts) && (x in read.exts ==> gate.exts[x] == read.exts[x]))
  {}

  // ---- what is reported ----

  function Held(dbs: seq<Database>, scheduled: set<string>): nat {
    if dbs == [] then 0 else Held(dbs[..|dbs| - 1], scheduled) + if dbs[|dbs| - 1].name in scheduled then 1 else 0
  }

  function Report(db: Database, scheduled: set<string>, full: bool): Database {
    if db.name in scheduled then Database(db.name, true, "")
    else if db.monitored then Database(db.name, false, if full then "db_budget" else "discovered_after_start")
    else db
  }

  /** Rewrites each database's verdict to what the agent collects. */
  method ReportScheduled(dbs: array<Database>, scheduled: set<string>)
    modifies dbs
    ensures var was := old(dbs[..]);
            forall i :: 0 <= i < dbs.Length ==> dbs[i] == Report(was[i], scheduled, Held(was, scheduled) >= Slots(was))
  {
    var held, monitored := 0, 0;
    for i := 0 to dbs.Length
      invariant held == Held(dbs[..i], scheduled) && monitored == Slots(dbs[..i])
    {
      assert dbs[..i + 1][..i] == dbs[..i];
      if dbs[i].name in scheduled {
        held := held + 1;
      }
      if dbs[i].monitored {
        monitored := monitored + 1;
      }
    }
    assert dbs[..dbs.Length] == dbs[..];
    var full := held >= monitored;
    for i := 0 to dbs.Length
      invariant forall j :: i <= j < dbs.Length ==> dbs[j] == old(dbs[j])
      invariant forall j :: 0 <= j < i ==> dbs[j] == Report(old(dbs[j]), scheduled, full)
    {
      if dbs[i].name in scheduled {
        dbs[i] := dbs[i].(monitored := true, skipReason := "");
      } else if dbs[i].monitored && full {
        dbs[i] := dbs[i].(monitored := false, skipReason := "db_budget");
      } else if dbs[i].monitored {
        dbs[i] := dbs[i].(monitored := false, skipReason := "discovered_after_start");
      }
    }
  }

  lemma {:induction false} HeldCount(dbs: seq<Database>, scheduled: set<string>)
    requires Distinct(dbs)
    ensures Held(dbs, scheduled) == |scheduled * Names(dbs)|
  {
    if dbs == [] {
      assert scheduled * Names(dbs) == {};
    } else {
      var front, last := dbs[..|dbs| - 1], dbs[|dbs| - 1];
      assert dbs == front + [last];
      HeldCount(front, scheduled);
      OneMore(front, last);
      assert last.name !in Names(front);
      CommonGrows(scheduled, Names(front), last.name);
    }
  }

  lemma CommonGrows<T>(a: set<T>, b: set<T>, x: T)
    requires x !in b
    ensures |a * (b + {x})| == |a * b| + if x in a then 1 else 0
  {
    assert a * (b + {x}) == a * b + (if x in a then {x} else {});
  }

  /**
    For any schedule: a database is shown as monitored exactly when it is scheduled; one that the budget
    takes and the schedule does not is over the budget if as many listed ones are scheduled as the budget
    takes, and else waits for its turn; and of any other the verdict stays.
  */
  lemma ReportReason(dbs: seq<Database>, scheduled: set<string>, db: Database)
    requires Distinct(dbs) && db in dbs
    ensures var shown := Report(db, scheduled, Held(dbs, scheduled) >= Slots(dbs));
      && shown.name == db.name && (shown.monitored <==> db.name in scheduled)
      && (db.name in scheduled ==> shown.skipReason == "")
      && (db.name !in scheduled && !db.monitored ==> shown == db)
      && (db.name !in scheduled && db.monitored ==>
            shown.skipReason == if |scheduled * Names(dbs)| >= |Monitored(dbs)| then "db_budget"
                                else "discovered_after_start")
  {
    HeldCount(dbs, scheduled);
    SlotsCount(dbs);
  }

  /**
    What is reported of a listed database: monitored exactly when it is scheduled; and when the schedule
    has been made from this very listing, none is said to wait for a free slot.
  */
  lemma ReportExact(limit: int, history: Reads, db: Database)
    requires ValidReads(limit, history) && history.read.ok && db in history.read.gate.discovered
    requires db.monitored || db.skipReason != "discovered_after_start"
    ensures var dbs, scheduled := history.read.gate.discovered, GateAfter(history).databases;
            var shown := Report(db, scheduled, Held(dbs, scheduled) >= Slots(dbs));
            && shown.name == db.name && (shown.monitored <==> db.name in scheduled)
            && shown.skipReason != "discovered_after_start"
  {
    var dbs, scheduled := history.read.gate.discovered, GateAfter(history).databases;
    UsableReadFillsBudget(limit, history);
    BudgetedSlots(dbs, limit);
    HeldCount(dbs, scheduled);
    assert scheduled * Names(dbs) == scheduled;
  }
}
