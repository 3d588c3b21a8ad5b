/** One advisor pass over one instance: it reports what rules found and resolves what they no longer find. */
module AdvisorReconcile {
  import opened Basics

  datatype State = Open | Degraded | Muted | Resolved

  datatype Finding = Finding(ruleId: string, severity: string, state: State, scope: string, cluster: Option<int>,
                             instance: Option<string>, datname: string, objectName: string, detail: string)

  /** What evaluating a rule's own code does. */
  datatype Answer = Panics | Finds(findings: seq<Finding>)

  datatype Rule = Rule(id: string, severity: string, scope: string, minTier: int, needs: seq<string>, answer: Answer)

  datatype Snapshot = Snapshot(instance: string, cluster: int, tier: int, missing: set<string>)

  datatype Row = Row(ruleId: string, instance: Option<string>, state: State, mutedUntil: Option<int>,
                     firstSeen: int, lastSeen: int, resolvedAt: Option<int>)

  type Rows = map<string, Row>

  function IntText(n: int): string {
    if n < 0 then "-" + NatText(-n) else NatText(n)
  }

  function NatText(n: nat): string {
    if n < 10 then ["0123456789"[n]] else NatText(n / 10) + ["0123456789"[n % 10]]
  }

  function Id(f: Finding): string {
    var thing := if f.objectName != "" && f.datname != "" then f.datname + "/" + f.objectName
                  else if f.objectName == "" then f.datname else f.objectName;
    var owned := if f.instance.None? then thing
                 else if thing == "" then f.instance.value
                 else f.instance.value + "/" + thing;
    var subject := if owned == "" && f.cluster.Some? then "cluster:" + IntText(f.cluster.value) else owned;
    f.ruleId + "/" + subject
  }

  function WholeDegraded(r: Rule, detail: string): Finding {
    Finding(r.id, r.severity, Degraded, r.scope, None, None, "", "", detail)
  }

  /** The findings of a rule, and whether its code panicked. */
  function Evaluate(r: Rule, s: Snapshot): (seq<Finding>, bool) {
    if s.tier < r.minTier then ([WholeDegraded(r, "advisor rule requires a higher permission tier")], false)
    else if exists i :: 0 <= i < |r.needs| && r.needs[i] in s.missing then
      ([WholeDegraded(r, "required advisor input is unavailable")], false)
    else if r.answer.Panics? then ([WholeDegraded(r, "rule evaluation panicked")], true)
    else (r.answer.findings, false)
  }

  predicate DegradedAsWhole(findings: seq<Finding>) {
    exists i :: 0 <= i < |findings| && findings[i].state == Degraded && findings[i].datname == ""
      && findings[i].objectName == ""
  }

  /** The rule gave an answer about all its subjects in this pass. */
  predicate Answered(r: Rule, s: Snapshot) {
    !Evaluate(r, s).1 && !DegradedAsWhole(Evaluate(r, s).0)
  }

  function Complete(f: Finding, r: Rule, s: Snapshot): Finding {
    var g := f.(ruleId := if f.ruleId == "" then r.id else f.ruleId,
                instance := if f.instance.None? then Some(s.instance) else f.instance,
                cluster := if f.cluster.None? && s.cluster != 0 then Some(s.cluster) else f.cluster,
                scope := if f.scope == "" then r.scope else f.scope,
                severity := if f.severity == "" then r.severity else f.severity);
    if Id(g) == r.id + "/" then g.(objectName := s.instance) else g
  }

  function CompleteAll(fs: seq<Finding>, r: Rule, s: Snapshot): (out: seq<Finding>)
    ensures |out| == |fs| && forall i :: 0 <= i < |fs| ==> out[i] == Complete(fs[i], r, s)
  {
    seq(|fs|, i requires 0 <= i < |fs| => Complete(fs[i], r, s))
  }

  /** What one rule reports. */
  function ReportsOf(r: Rule, s: Snapshot): seq<Finding> {
    CompleteAll(Evaluate(r, s).0, r, s)
  }

  /** Everything the pass reports, in order. */
  function Reports(rules: seq<Rule>, s: Snapshot): seq<Finding> {
    if rules == [] then [] else Reports(rules[..|rules| - 1], s) + ReportsOf(rules[|rules| - 1], s)
  }

  function Ran(rules: seq<Rule>, s: Snapshot): seq<string> {
    if rules == [] then []
    else
      var r := rules[|rules| - 1];
      Ran(rules[..|rules| - 1], s) + if Answered(r, s) then [r.id] else []
  }

  function Ids(fs: seq<Finding>): (out: seq<string>)
    ensures |out| == |fs| && forall i :: 0 <= i < |fs| ==> out[i] == Id(fs[i])
  {
    seq(|fs|, i requires 0 <= i < |fs| => Id(fs[i]))
  }

  // ---- the store ----

  function Upsert(rows: Rows, f: Finding, now: int): Rows {
    var id := Id(f);
    if id in rows then
      var muted := rows[id].mutedUntil.Some? && rows[id].mutedUntil.value > now;
      rows[id := rows[id].(ruleId := f.ruleId, instance := f.instance, lastSeen := now, resolvedAt := None,
                           state := if muted then Muted else f.state)]
    else rows[id := Row(f.ruleId, f.instance, f.state, None, now, now, None)]
  }

  predicate Absent(id: string, row: Row, instance: string, ran: seq<string>, seen: seq<string>) {
    row.instance == Some(instance) && row.state != Resolved && row.ruleId in ran && id !in seen
  }

  function ResolveAbsent(rows: Rows, instance: string, ran: seq<string>, seen: seq<string>, now: int): Rows {
    if ran == [] then rows
    else
      map id | id in rows ::
        if Absent(id, rows[id], instance, ran, seen) then rows[id].(state := Resolved, resolvedAt := Some(now))
          else rows[id]
  }

  /** The writes of the pass; `written` says which of them were made. */
  function UpsertSome(rows: Rows, fs: seq<Finding>, written: seq<bool>, now: int): Rows
    requires |written| == |fs|
  {
    if fs == [] then rows
    else
      var before := UpsertSome(rows, fs[..|fs| - 1], written[..|fs| - 1], now);
      if written[|fs| - 1] then Upsert(before, fs[|fs| - 1], now) else before
  }

  function PassRows(rows: Rows, rules: seq<Rule>, s: Snapshot, written: seq<bool>, resolved: bool, now: int): Rows
    requires |written| == |Reports(rules, s)|
  {
    var reports := Reports(rules, s);
    var mid := UpsertSome(rows, reports, written, now);
    if resolved then ResolveAbsent(mid, s.instance, Ran(rules, s), Ids(reports), now) else mid
  }

  /** The findings table. A call that fails may have been carried out all the same. */
  class FindingsTable {
    var rows: Rows

    method UpsertFinding(f: Finding, now: int) returns (ok: bool, ghost written: bool)
      modifies this
      ensures rows == (if written then Upsert(old(rows), f, now) else old(rows)) && (ok ==> written)
    {
      written := false;
      ok := false;
      if * {
        rows := Upsert(rows, f, now);
        written := true;
        if * {
          ok := true;
        }
      }
    }

    method Resolve(instance: string, ran: seq<string>, seen: seq<string>, now: int)
      returns (ok: bool, ghost written: bool)
      modifies this
      ensures rows == (if written then ResolveAbsent(old(rows), instance, ran, seen, now) else old(rows))
      ensures (ok ==> written)
    {
      written := false;
      ok := false;
      if * {
        rows := ResolveAbsent(rows, instance, ran, seen, now);
        written := true;
        if * {
          ok := true;
        }
      }
    }
  }

  lemma IdsConcat(a: seq<Finding>, b: seq<Finding>)
    ensures Ids(a + b) == Ids(a) + Ids(b)
  {}

  lemma OneMoreWrite(start: Rows, fs: seq<Finding>, i: nat, written: seq<bool>, w: bool, mid: Rows, rows: Rows,
                     now: int)
    requires i < |fs| && |written| == i && mid == UpsertSome(start, fs[..i], written, now)
    requires rows == if w then Upsert(mid, fs[i], now) else mid
    ensures rows == UpsertSome(start, fs[..i + 1], written + [w], now)
  {
    assert fs[..i + 1][..i] == fs[..i] && (written + [w])[..i] == written;
  }

  method WriteOne(table: FindingsTable, fs: seq<Finding>, i: nat, now: int, ghost start: Rows, ghost written: seq<bool>)
    returns (done: bool, ghost w: bool)
    requires i < |fs| && |written| == i && table.rows == UpsertSome(start, fs[..i], written, now)
    modifies table
    ensures table.rows == UpsertSome(start, fs[..i + 1], written + [w], now) && (done ==> w)
  {
    ghost var mid := table.rows;
    done, w := table.UpsertFinding(fs[i], now);
    OneMoreWrite(start, fs, i, written, w, mid, table.rows, now);
  }

  /** Writes findings one by one. One that fails is still recorded as seen, and the rest follow. */
  method Report(table: FindingsTable, fs: seq<Finding>, now: int, seen: seq<string>)
    returns (seen': seq<string>, ok: bool, ghost written: seq<bool>)
    modifies table
    ensures |written| == |fs| && table.rows == UpsertSome(old(table.rows), fs, written, now)
    ensures seen' == seen + Ids(fs)
    ensures ok ==> forall i :: 0 <= i < |written| ==> written[i]
  {
    seen' := seen + Ids(fs);
    ok, written := WriteAll(table, fs, now);
  }

  method WriteAll(table: FindingsTable, fs: seq<Finding>, now: int) returns (ok: bool, ghost written: seq<bool>)
    modifies table
    ensures |written| == |fs| && table.rows == UpsertSome(old(table.rows), fs, written, now)
    ensures ok ==> forall i :: 0 <= i < |written| ==> written[i]
  {
    ok, written := true, [];
    for i := 0 to |fs|
      invariant |written| == i && table.rows == UpsertSome(old(table.rows), fs[..i], written, now)
      invariant ok ==> forall j :: 0 <= j < i ==> written[j]
    {
      ghost var w;
      var done;
      done, w := WriteOne(table, fs, i, now, old(table.rows), written);
      ok := ok && done;
      written := written + [w];
    }
    assert fs[..|fs|] == fs;
  }

  /** Evaluates one rule and reports its findings. A rule without an answer does not count as run. */
  method RunRule(table: FindingsTable, r: Rule, s: Snapshot, now: int, ran: seq<string>, seen: seq<string>)
    returns (ran': seq<string>, seen': seq<string>, ok: bool, ghost written: seq<bool>)
    modifies table
    ensures |written| == |ReportsOf(r, s)| && table.rows == UpsertSome(old(table.rows), ReportsOf(r, s), written, now)
    ensures ran' == ran + (if Answered(r, s) then [r.id] else []) && seen' == seen + Ids(ReportsOf(r, s))
    ensures ok ==> forall i :: 0 <= i < |written| ==> written[i]
  {
    var (findings, panicked) := Evaluate(r, s);
    ran' := ran + [r.id];
    if panicked || DegradedAsWhole(findings) {
      ran' := ran'[..|ran'| - 1];
    }
    seen', ok, written := Report(table, CompleteAll(findings, r, s), now, seen);
  }

  lemma {:induction false} UpsertSomeConcat(rows: Rows, a: seq<Finding>, b: seq<Finding>, wa: seq<bool>,
                                            wb: seq<bool>, now: int)
    requires |wa| == |a| && |wb| == |b|
    ensures UpsertSome(rows, a + b, wa + wb, now) == UpsertSome(UpsertSome(rows, a, wa, now), b, wb, now)
  {
    if b == [] {
      assert a + b == a && wa + wb == wa;
    } else {
      var n := |b| - 1;
      assert (a + b)[..|a| + n] == a + b[..n] && (wa + wb)[..|a| + n] == wa + wb[..n];
      UpsertSomeConcat(rows, a, b[..n], wa, wb[..n], now);
    }
  }

  /** The pass over one instance, after its snapshot was loaded. */
  method RunInstance(table: FindingsTable, rules: seq<Rule>, s: Snapshot, now: int)
    returns (ok: bool, ghost written: seq<bool>, ghost resolved: bool)
    modifies table
    ensures |written| == |Reports(rules, s)|
    ensures table.rows == PassRows(old(table.rows), rules, s, written, resolved, now)
    ensures ok ==> resolved && forall i :: 0 <= i < |written| ==> written[i]
  {
    var ran: seq<string>, seen: seq<string> := [], [];
    ok, written := true, [];
    for k := 0 to |rules|
      invariant |written| == |Reports(rules[..k], s)|
      invariant table.rows == UpsertSome(old(table.rows), Reports(rules[..k], s), written, now)
      invariant ran == Ran(rules[..k], s) && seen == Ids(Reports(rules[..k], s))
      invariant ok ==> forall i :: 0 <= i < |written| ==> written[i]
    {
      assert rules[..k + 1][..k] == rules[..k];
      ghost var w;
      var done;
      ran, seen, done, w := RunRule(table, rules[k], s, now, ran, seen);
      UpsertSomeConcat(old(table.rows), Reports(rules[..k], s), ReportsOf(rules[k], s), written, w, now);
      IdsConcat(Reports(rules[..k], s), ReportsOf(rules[k], s));
      written := written + w;
      ok := ok && done;
    }
    assert rules[..|rules|] == rules;
    var done;
    done, resolved := table.Resolve(s.instance, ran, seen, now);
    ok := ok && done;
  }

  // ---- whose row an id names ----

  predicate SlashFree(t: string) {
    '/' !in t
  }

  /** The id names the rule and the instance, and whatever follows begins a new part. */
  predicate IdFits(id: string, rule: string, instance: string) {
    var head := rule + "/" + instance;
    head <= id && (|id| == |head| || id[|head|] == '/')
  }

  lemma EndsBySlash(id: string, a: nat, b: string, from: nat)
    requires SlashFree(b) && from <= a <= |id| && (a < |id| ==> id[a] == '/') && from + |b| <= |id|
    requires id[from..from + |b|] == b
    ensures from + |b| <= a
  {
    assert forall i :: 0 <= i < |b| ==> id[from + i] == b[i] && b[i] in b;
  }

  /** An id names one rule and one instance only. */
  lemma IdOwner(id: string, rule: string, instance: string, rule': string, instance': string)
    requires SlashFree(rule) && SlashFree(instance) && SlashFree(rule') && SlashFree(instance')
    requires IdFits(id, rule, instance) && IdFits(id, rule', instance')
    ensures rule == rule' && instance == instance'
  {
    var h, h' := rule + "/" + instance, rule' + "/" + instance';
    assert h[..|rule|] == rule && h'[..|rule'|] == rule' && h[|rule|] == '/' && h'[|rule'|] == '/';
    assert id[0..0 + |rule|] == rule && id[0..0 + |rule'|] == rule';
    EndsBySlash(id, |rule|, rule', 0);
    EndsBySlash(id, |rule'|, rule, 0);
    var from := |rule| + 1;
    assert h[from..] == instance && h'[from..] == instance';
    assert id[from..from + |instance|] == instance && id[from..from + |instance'|] == instance';
    EndsBySlash(id, |h|, instance', from);
    EndsBySlash(id, |h'|, instance, from);
  }

  /** What a registered rule may report: its own findings, about the instance of the snapshot. */
  predicate RuleOk(r: Rule, s: Snapshot) {
    && r.id != "" && SlashFree(r.id)
    && (r.answer.Finds? ==> forall i :: 0 <= i < |r.answer.findings| ==>
          var f := r.answer.findings[i];
          f.ruleId in {"", r.id} && f.instance in {None, Some(s.instance)} && f.state in {Open, Degraded})
  }

  ghost predicate RulesOk(rules: seq<Rule>, s: Snapshot) {
    && s.instance != "" && SlashFree(s.instance)
    && (forall i :: 0 <= i < |rules| ==> RuleOk(rules[i], s))
    && (forall i, j :: 0 <= i < j < |rules| ==> rules[i].id != rules[j].id)
  }

  /** Every row is filed under an id of its own rule and instance. */
  ghost predicate TableOk(rows: Rows) {
    forall id :: id in rows ==> OwnedRow(id, rows[id])
  }

  predicate OwnedRow(id: string, row: Row) {
    row.instance.Some? && SlashFree(row.ruleId) && SlashFree(row.instance.value)
      && IdFits(id, row.ruleId, row.instance.value)
  }

  /** A report as the store gets it. */
  predicate ReportOk(f: Finding, instance: string) {
    && f.instance == Some(instance) && SlashFree(f.ruleId) && SlashFree(instance)
    && f.state in {Open, Degraded} && IdFits(Id(f), f.ruleId, instance)
  }

  lemma CompleteOk(r: Rule, s: Snapshot, i: nat)
    requires s.instance != "" && SlashFree(s.instance) && RuleOk(r, s) && i < |Evaluate(r, s).0|
    ensures ReportOk(Complete(Evaluate(r, s).0[i], r, s), s.instance)
    ensures Complete(Evaluate(r, s).0[i], r, s).ruleId == r.id
  {
    var f := Evaluate(r, s).0[i];
    assert f.ruleId in {"", r.id} && f.instance in {None, Some(s.instance)} && f.state in {Open, Degraded};
    CompleteOne(f, r, s);
  }

  lemma CompleteOne(f: Finding, r: Rule, s: Snapshot)
    requires s.instance != "" && SlashFree(s.instance) && r.id != "" && SlashFree(r.id)
    requires f.ruleId in {"", r.id} && f.instance in {None, Some(s.instance)} && f.state in {Open, Degraded}
    ensures ReportOk(Complete(f, r, s), s.instance) && Complete(f, r, s).ruleId == r.id
  {
    var g := Complete(f, r, s);
    var head := r.id + "/" + s.instance;
    IdHead(g, s.instance);
  }

  /** A report that names an instance has an id that begins with its rule and that instance. */
  lemma IdHead(f: Finding, instance: string)
    requires f.instance == Some(instance) && instance != ""
    ensures IdFits(Id(f), f.ruleId, instance)
  {
    var thing := if f.objectName != "" && f.datname != "" then f.datname + "/" + f.objectName
                 else if f.objectName == "" then f.datname else f.objectName;
    var head := f.ruleId + "/" + instance;
    if thing == "" {
      assert Id(f) == head;
    } else {
      assert Id(f) == head + ("/" + thing);
      assert Id(f)[|head|] == '/';
    }
  }

  lemma {:induction false} ReportsFrom(rules: seq<Rule>, s: Snapshot)
    ensures forall f :: f in Reports(rules, s) <==> exists k :: 0 <= k < |rules| && f in ReportsOf(rules[k], s)
  {
    if rules != [] {
      var n := |rules| - 1;
      ReportsFrom(rules[..n], s);
      assert forall k :: 0 <= k < n ==> rules[..n][k] == rules[k];
    }
  }

  lemma {:induction false} RanFrom(rules: seq<Rule>, s: Snapshot)
    ensures forall id :: id in Ran(rules, s) <==>
      exists k :: 0 <= k < |rules| && rules[k].id == id && Answered(rules[k], s)
  {
    if rules != [] {
      var n := |rules| - 1;
      RanFrom(rules[..n], s);
      assert forall k :: 0 <= k < n ==> rules[..n][k] == rules[k];
    }
  }

  lemma ReportsOfOk(r: Rule, s: Snapshot)
    requires s.instance != "" && SlashFree(s.instance) && RuleOk(r, s)
    ensures forall f :: f in ReportsOf(r, s) ==> ReportOk(f, s.instance) && f.ruleId == r.id
  {
    forall f | f in ReportsOf(r, s) ensures ReportOk(f, s.instance) && f.ruleId == r.id {
      var i :| 0 <= i < |ReportsOf(r, s)| && ReportsOf(r, s)[i] == f;
      CompleteOk(r, s, i);
    }
  }

  lemma ReportsOk(rules: seq<Rule>, s: Snapshot)
    requires RulesOk(rules, s)
    ensures forall f :: f in Reports(rules, s) ==> ReportOk(f, s.instance)
  {
    ReportsFrom(rules, s);
    forall f | f in Reports(rules, s) ensures ReportOk(f, s.instance) {
      var k :| 0 <= k < |rules| && f in ReportsOf(rules[k], s);
      ReportsOfOk(rules[k], s);
    }
  }

  // ---- what the writes of a pass do ----

  /** Rows of other instances and rows that no report names are as they were, and no open row is closed. */
  ghost predicate WritesOk(rows: Rows, fs: seq<Finding>, rows': Rows, instance: string) {
    && TableOk(rows')
    && (forall id :: id in rows ==> id in rows')
    && (forall id :: id in rows' && id !in Ids(fs) ==> id in rows && rows'[id] == rows[id])
    && (forall id :: id in rows && rows[id].instance != Some(instance) ==> rows'[id] == rows[id])
    && (forall id :: id in rows' && id in Ids(fs) ==> rows'[id].instance == Some(instance))
    && (forall id :: id in rows && rows[id].state != Resolved ==> rows'[id].state != Resolved)
  }

  ghost predicate AllReported(fs: seq<Finding>, rows: Rows) {
    forall i :: 0 <= i < |fs| ==>
      Id(fs[i]) in rows && rows[Id(fs[i])].state != Resolved && rows[Id(fs[i])].ruleId == fs[i].ruleId
  }

  lemma UpsertOk(rows: Rows, f: Finding, instance: string, now: int)
    requires TableOk(rows) && ReportOk(f, instance)
    ensures var rows' := Upsert(rows, f, now);
      && TableOk(rows') && Id(f) in rows' && rows'[Id(f)].instance == Some(instance)
      && rows'[Id(f)].ruleId == f.ruleId && rows'[Id(f)].state != Resolved
      && (Id(f) in rows ==> rows[Id(f)].instance == Some(instance) && rows[Id(f)].ruleId == f.ruleId)
      && forall id :: id != Id(f) ==> (id in rows <==> id in rows') && (id in rows ==> rows'[id] == rows[id])
  {
    var id := Id(f);
    if id in rows {
      assert OwnedRow(id, rows[id]);
      IdOwner(id, f.ruleId, instance, rows[id].ruleId, rows[id].instance.value);
    }
    assert OwnedRow(id, Upsert(rows, f, now)[id]);
  }

  lemma {:induction false} UpsertSomeOk(rows: Rows, fs: seq<Finding>, written: seq<bool>, instance: string, now: int)
    requires |written| == |fs| && TableOk(rows) && forall f :: f in fs ==> ReportOk(f, instance)
    ensures WritesOk(rows, fs, UpsertSome(rows, fs, written, now), instance)
  {
    if fs != [] {
      var n := |fs| - 1;
      var front, last := fs[..n], fs[n];
      UpsertSomeOk(rows, front, written[..n], instance, now);
      var mid := UpsertSome(rows, front, written[..n], now);
      assert fs == front + [last];
      IdsConcat(front, [last]);
      UpsertOk(mid, last, instance, now);
      WritesGrow(rows, front, last, mid, if written[n] then Upsert(mid, last, now) else mid, instance);
    } else {
      IdsOfNone(rows, fs, instance);
    }
  }

  lemma {:induction false} UpsertAllOk(rows: Rows, fs: seq<Finding>, written: seq<bool>, instance: string, now: int)
    requires |written| == |fs| && TableOk(rows) && forall f :: f in fs ==> ReportOk(f, instance)
    requires forall i :: 0 <= i < |fs| ==> written[i]
    ensures AllReported(fs, UpsertSome(rows, fs, written, now))
  {
    hide TableOk, ReportOk, Id, Upsert, WritesOk, AllReported;
    if fs != [] {
      var n := |fs| - 1;
      var front, last := fs[..n], fs[n];
      UpsertAllOk(rows, front, written[..n], instance, now);
      UpsertSomeOk(rows, front, written[..n], instance, now);
      var mid := UpsertSome(rows, front, written[..n], now);
      UpsertOk(mid, last, instance, now);
      ReportedGrow(front, last, mid, Upsert(mid, last, now));
      assert fs == front + [last];
    } else {
      NoneReported(fs, rows);
    }
  }

  lemma NoneReported(fs: seq<Finding>, rows: Rows)
    requires fs == []
    ensures AllReported(fs, rows)
  {}

  lemma ReportedGrow(front: seq<Finding>, last: Finding, mid: Rows, rows': Rows)
    requires AllReported(front, mid)
    requires Id(last) in rows' && rows'[Id(last)].state != Resolved && rows'[Id(last)].ruleId == last.ruleId
    requires Id(last) in mid ==> mid[Id(last)].ruleId == last.ruleId
    requires forall id :: id != Id(last) && id in mid ==> id in rows' && rows'[id] == mid[id]
    ensures AllReported(front + [last], rows')
  {
    var fs := front + [last];
    forall i | 0 <= i < |fs|
      ensures Id(fs[i]) in rows' && rows'[Id(fs[i])].state != Resolved && rows'[Id(fs[i])].ruleId == fs[i].ruleId
    {
      if i < |front| {
        assert fs[i] == front[i];
        assert Id(front[i]) in mid && mid[Id(front[i])].ruleId == front[i].ruleId;
      }
    }
  }

  lemma IdsOfNone(rows: Rows, fs: seq<Finding>, instance: string)
    requires TableOk(rows) && fs == []
    ensures WritesOk(rows, fs, rows, instance)
  {}

  lemma WritesGrow(rows: Rows, front: seq<Finding>, last: Finding, mid: Rows, rows': Rows, instance: string)
    requires WritesOk(rows, front, mid, instance) && TableOk(rows')
    requires Ids(front + [last]) == Ids(front) + [Id(last)]
    requires rows' == mid ||
             (&& Id(last) in rows' && rows'[Id(last)].instance == Some(instance) && rows'[Id(last)].state != Resolved
              && (Id(last) in mid ==> mid[Id(last)].instance == Some(instance))
              && forall id :: id != Id(last) ==> (id in mid <==> id in rows') && (id in mid ==> rows'[id] == mid[id]))
    requires Id(last) in mid ==> mid[Id(last)].instance == Some(instance)
    ensures WritesOk(rows, front + [last], rows', instance)
  {
  }

  // ---- what a pass leaves ----

  /** The open rows of a rule on an instance. */
  predicate OpenRow(rows: Rows, id: string, rule: string, instance: string) {
    id in rows && rows[id].instance == Some(instance) && rows[id].ruleId == rule && rows[id].state != Resolved
  }

  lemma ResolveKeeps(rows: Rows, instance: string, ran: seq<string>, seen: seq<string>, now: int)
    ensures var rows' := ResolveAbsent(rows, instance, ran, seen, now);
      && rows'.Keys == rows.Keys
      && (forall id :: id in rows && !Absent(id, rows[id], instance, ran, seen) ==> rows'[id] == rows[id])
      && (forall id :: id in rows && Absent(id, rows[id], instance, ran, seen) ==>
            rows'[id] == rows[id].(state := Resolved, resolvedAt := Some(now)))
  {}

  lemma InIds(fs: seq<Finding>, f: Finding)
    requires f in fs
    ensures Id(f) in Ids(fs)
  {
    var i :| 0 <= i < |fs| && fs[i] == f;
    assert Ids(fs)[i] == Id(f);
  }

  lemma FromIds(fs: seq<Finding>, id: string) returns (f: Finding)
    requires id in Ids(fs)
    ensures f in fs && Id(f) == id
  {
    var i :| 0 <= i < |fs| && Ids(fs)[i] == id;
    f := fs[i];
  }

  lemma ReportedAt(fs: seq<Finding>, rows: Rows, f: Finding)
    requires AllReported(fs, rows) && f in fs
    ensures Id(f) in rows && rows[Id(f)].state != Resolved && rows[Id(f)].ruleId == f.ruleId
  {
    var i :| 0 <= i < |fs| && fs[i] == f;
  }

  /**
    After a pass whose store calls all succeed, the open rows of every rule that answered are
    exactly the ids it reported.
  */
  lemma ReconcileExact(rows: Rows, rules: seq<Rule>, s: Snapshot, written: seq<bool>, now: int, k: nat, id: string)
    requires TableOk(rows) && RulesOk(rules, s) && |written| == |Reports(rules, s)|
    requires forall i :: 0 <= i < |written| ==> written[i]
    requires k < |rules| && Answered(rules[k], s)
    ensures OpenRow(PassRows(rows, rules, s, written, true, now), id, rules[k].id, s.instance)
       <==> id in Ids(ReportsOf(rules[k], s))
  {
    var reports, ran := Reports(rules, s), Ran(rules, s);
    var mid := UpsertSome(rows, reports, written, now);
    ReportsOk(rules, s);
    UpsertSomeOk(rows, reports, written, s.instance, now);
    UpsertAllOk(rows, reports, written, s.instance, now);
    ResolveKeeps(mid, s.instance, ran, Ids(reports), now);
    assert rules[k].id in ran by { RanFrom(rules, s); }
    if id in Ids(ReportsOf(rules[k], s)) {
      ReportedIsOpen(rules, s, k, id, mid);
    } else if OpenRow(PassRows(rows, rules, s, written, true, now), id, rules[k].id, s.instance) {
      assert id in Ids(reports);
      var f := FromIds(reports, id);
      ReportedAt(reports, mid, f);
      NamesItsRule(rules, s, f, k);
    }
  }

  lemma ReportedIsOpen(rules: seq<Rule>, s: Snapshot, k: nat, id: string, mid: Rows)
    requires RulesOk(rules, s) && k < |rules| && id in Ids(ReportsOf(rules[k], s))
    requires AllReported(Reports(rules, s), mid)
    requires forall id :: id in mid && id in Ids(Reports(rules, s)) ==> mid[id].instance == Some(s.instance)
    ensures OpenRow(mid, id, rules[k].id, s.instance) && id in Ids(Reports(rules, s))
  {
    var f := FromIds(ReportsOf(rules[k], s), id);
    ReportsOfOk(rules[k], s);
    assert f in Reports(rules, s) by { ReportsFrom(rules, s); }
    InIds(Reports(rules, s), f);
    ReportedAt(Reports(rules, s), mid, f);
  }

  /** A report that carries the id of a rule comes from that rule. */
  lemma NamesItsRule(rules: seq<Rule>, s: Snapshot, f: Finding, k: nat)
    requires RulesOk(rules, s) && k < |rules| && f in Reports(rules, s) && f.ruleId == rules[k].id
    ensures f in ReportsOf(rules[k], s) && Id(f) in Ids(ReportsOf(rules[k], s))
  {
    ReportsFrom(rules, s);
    var m :| 0 <= m < |rules| && f in ReportsOf(rules[m], s);
    ReportsOfOk(rules[m], s);
    assert m == k;
    InIds(ReportsOf(rules[k], s), f);
  }

  lemma KeptOwner(rows: Rows, rows': Rows, id: string)
    requires TableOk(rows) && TableOk(rows') && id in rows && id in rows'
    ensures rows[id].ruleId == rows'[id].ruleId && rows[id].instance == rows'[id].instance
  {
    assert OwnedRow(id, rows[id]) && OwnedRow(id, rows'[id]);
    IdOwner(id, rows[id].ruleId, rows[id].instance.value, rows'[id].ruleId, rows'[id].instance.value);
  }

  /**
    Whatever the store does: an open row of a rule that gave no answer, or of a finding seen in the
    pass, stays open, and no row of another instance changes or appears.
  */
  lemma ReconcileKeeps(rows: Rows, rules: seq<Rule>, s: Snapshot, written: seq<bool>, resolved: bool, now: int,
                       id: string)
    requires TableOk(rows) && RulesOk(rules, s) && |written| == |Reports(rules, s)|
    ensures var rows' := PassRows(rows, rules, s, written, resolved, now);
      && TableOk(rows')
      && (id in rows && rows[id].state != Resolved && rows[id].ruleId !in Ran(rules, s) ==>
            id in rows' && rows'[id].state != Resolved)
      && (id in rows && rows[id].state != Resolved && id in Ids(Reports(rules, s)) ==>
            id in rows' && rows'[id].state != Resolved)
      && (id in rows && rows[id].instance != Some(s.instance) ==> id in rows' && rows'[id] == rows[id])
      && (id in rows' && rows'[id].instance != Some(s.instance) ==> id in rows)
  {
    var reports, ran := Reports(rules, s), Ran(rules, s);
    var mid := UpsertSome(rows, reports, written, now);
    ReportsOk(rules, s);
    UpsertSomeOk(rows, reports, written, s.instance, now);
    ResolveKeeps(mid, s.instance, ran, Ids(reports), now);
    if id in rows { KeptOwner(rows, mid, id); }
  }

  /**
    What a rule left open in a finding is filled in, and what it said stays. The object is never filled
    in: the id of a finding with an instance has a subject.
  */
  lemma CompleteFills(f: Finding, r: Rule, s: Snapshot)
    ensures var g := Complete(f, r, s);
      && g.state == f.state && g.datname == f.datname && g.detail == f.detail
      && g.ruleId == (if f.ruleId != "" then f.ruleId else r.id)
      && g.instance == (if f.instance.Some? then f.instance else Some(s.instance))
      && g.cluster == (if f.cluster.Some? then f.cluster else if s.cluster != 0 then Some(s.cluster) else None)
      && g.severity == (if f.severity != "" then f.severity else r.severity)
      && g.scope == (if f.scope != "" then f.scope else r.scope)
      && (g.ruleId == r.id && g.instance.value != "" ==> g.objectName == f.objectName)
  {
    var g := Complete(f, r, s);
    if g.ruleId == r.id && g.instance.value != "" {
      assert |Id(g.(objectName := f.objectName))| > |r.id + "/"|;
    }
  }

  // ---- which rules give an answer ----

  /**
    The rule says nothing about its subjects in this pass: the tier is too low, an input is missing, its
    code panics, or it reports itself that it could not look at the instance.
  */
  predicate NoAnswer(r: Rule, s: Snapshot) {
    || s.tier < r.minTier
    || (exists need :: need in r.needs && need in s.missing)
    || r.answer.Panics?
    || (exists f :: f in r.answer.findings && f.state == Degraded && f.datname == "" && f.objectName == "")
  }

  lemma NoAnswerIs(r: Rule, s: Snapshot)
    ensures NoAnswer(r, s) <==> !Answered(r, s)
    ensures !NoAnswer(r, s) ==> r.answer.Finds? && Evaluate(r, s).0 == r.answer.findings
  {
    if exists need :: need in r.needs && need in s.missing {
      var need :| need in r.needs && need in s.missing;
      var i :| 0 <= i < |r.needs| && r.needs[i] == need;
    }
    assert forall i :: 0 <= i < |r.needs| && r.needs[i] in s.missing ==> r.needs[i] in r.needs;
    if s.tier < r.minTier || Evaluate(r, s).0 != (if r.answer.Finds? then r.answer.findings else []) {
      assert Evaluate(r, s).0[0].state == Degraded;
    } else {
      assert forall i :: 0 <= i < |r.answer.findings| ==> r.answer.findings[i] in r.answer.findings;
    }
  }

  /** An open row of a rule that gives no answer is open after the pass, whatever calls of the store fail. */
  lemma NoAnswerKeepsOpen(rows: Rows, rules: seq<Rule>, s: Snapshot, written: seq<bool>, resolved: bool, now: int,
                          k: nat, id: string)
    requires TableOk(rows) && RulesOk(rules, s) && |written| == |Reports(rules, s)|
    requires k < |rules| && NoAnswer(rules[k], s) && OpenRow(rows, id, rules[k].id, s.instance)
    ensures OpenRow(PassRows(rows, rules, s, written, resolved, now), id, rules[k].id, s.instance)
  {
    NoAnswerIs(rules[k], s);
    RanFrom(rules, s);
    ReconcileKeeps(rows, rules, s, written, resolved, now, id);
    KeptOwner(rows, PassRows(rows, rules, s, written, resolved, now), id);
  }

  /**
    After a pass whose store calls all succeed, the open rows of a rule that gives an answer are exactly
    the ids of the findings it returned.
  */
  lemma AnswerIsExact(rows: Rows, rules: seq<Rule>, s: Snapshot, written: seq<bool>, now: int, k: nat, id: string)
    requires TableOk(rows) && RulesOk(rules, s) && |written| == |Reports(rules, s)|
    requires forall i :: 0 <= i < |written| ==> written[i]
    requires k < |rules| && !NoAnswer(rules[k], s)
    ensures OpenRow(PassRows(rows, rules, s, written, true, now), id, rules[k].id, s.instance) <==>
      exists f :: f in rules[k].answer.findings && Id(Complete(f, rules[k], s)) == id
  {
    hide Answered, Id, Complete, RulesOk, TableOk, OpenRow, PassRows, Reports, Ids;
    NoAnswerIs(rules[k], s);
    ReconcileExact(rows, rules, s, written, now, k, id);
    ReturnedIds(rules[k], s, id);
  }

  lemma ReturnedIds(r: Rule, s: Snapshot, id: string)
    requires r.answer.Finds? && Evaluate(r, s).0 == r.answer.findings
    ensures id in Ids(ReportsOf(r, s)) <==> exists f :: f in r.answer.findings && Id(Complete(f, r, s)) == id
  {
    hide Id, Complete;
    var fs, ids := r.answer.findings, Ids(ReportsOf(r, s));
    if id in ids {
      var i :| 0 <= i < |ids| && ids[i] == id;
      assert fs[i] in fs && Id(Complete(fs[i], r, s)) == id;
    }
    if f :| f in fs && Id(Complete(f, r, s)) == id {
      var i :| 0 <= i < |fs| && fs[i] == f;
      assert ids[i] == id;
    }
  }

  /**
    A finding about an object is told by its rule, its instance, its database and its object: two such
    findings share a row only if they agree in all four.
  */
  lemma ObjectsHaveOwnRows(f: Finding, g: Finding)
    requires f.instance.Some? && g.instance.Some? && SlashFree(f.ruleId) && SlashFree(g.ruleId)
    requires SlashFree(f.instance.value) && f.instance.value != ""
    requires SlashFree(g.instance.value) && g.instance.value != ""
    requires f.datname != "" && g.datname != "" && SlashFree(f.datname) && SlashFree(g.datname)
    requires f.objectName != "" && g.objectName != ""
    ensures Id(f) == Id(g) <==>
      f.ruleId == g.ruleId && f.instance == g.instance && f.datname == g.datname && f.objectName == g.objectName
  {
    if Id(f) == Id(g) {
      IdHead(f, f.instance.value);
      IdHead(g, g.instance.value);
      IdOwner(Id(f), f.ruleId, f.instance.value, g.ruleId, g.instance.value);
      var head := f.ruleId + "/" + f.instance.value + "/";
      var a, b := f.datname + "/" + f.objectName, g.datname + "/" + g.objectName;
      assert Id(f) == head + a && Id(g) == head + b;
      assert Id(f)[|head|..] == a && Id(g)[|head|..] == b;
      assert a[0..0 + |f.datname|] == f.datname && a[|f.datname|] == '/';
      assert b[0..0 + |g.datname|] == g.datname && b[|g.datname|] == '/';
      EndsBySlash(a, |f.datname|, g.datname, 0);
      EndsBySlash(b, |g.datname|, f.datname, 0);
      assert a[|f.datname| + 1..] == f.objectName && b[|g.datname| + 1..] == g.objectName;
    }
  }

  // ---- what a pass writes in a row ----

  predicate MutedAt(rows: Rows, id: string, now: int) {
    id in rows && rows[id].mutedUntil.Some? && rows[id].mutedUntil.value > now
  }

  /** The row of a finding that was reported: since when it is known, seen now, and muted as long as it was to be. */
  ghost predicate SeenRow(rows: Rows, rows': Rows, id: string, fs: seq<Finding>, now: int) {
    && id in rows' && rows'[id].lastSeen == now && rows'[id].resolvedAt.None?
    && rows'[id].firstSeen == (if id in rows then rows[id].firstSeen else now)
    && rows'[id].mutedUntil == (if id in rows then rows[id].mutedUntil else None)
    && if MutedAt(rows, id, now) then rows'[id].state == Muted
       else exists f :: f in fs && Id(f) == id && rows'[id].state == f.state
  }

  /** What the writes of some reports leave of the row of an id. */
  ghost predicate SeenOrKept(rows: Rows, rows': Rows, id: string, fs: seq<Finding>, now: int) {
    if id in Ids(fs) then SeenRow(rows, rows', id, fs, now)
    else (id in rows' <==> id in rows) && (id in rows ==> rows'[id] == rows[id])
  }

  lemma OwnUpsert(rows: Rows, mid: Rows, front: seq<Finding>, f: Finding, now: int)
    requires SeenOrKept(rows, mid, Id(f), front, now)
    ensures SeenRow(rows, Upsert(mid, f, now), Id(f), front + [f], now)
  {
    hide Id, Ids;
    assert f in front + [f];
    assert Id(f) in mid ==> Id(f) in rows || mid[Id(f)].mutedUntil.None?;
  }

  lemma OtherUpsert(rows: Rows, mid: Rows, front: seq<Finding>, f: Finding, id: string, now: int)
    requires SeenOrKept(rows, mid, id, front, now) && id != Id(f)
    ensures SeenOrKept(rows, Upsert(mid, f, now), id, front + [f], now)
  {
    hide Id;
    IdsConcat(front, [f]);
    if id in Ids(front) && !MutedAt(rows, id, now) {
      var g :| g in front && Id(g) == id && mid[id].state == g.state;
      assert g in front + [f];
    }
  }

  lemma {:induction false} UpsertsSeen(rows: Rows, fs: seq<Finding>, written: seq<bool>, now: int, id: string)
    requires |written| == |fs| && forall i :: 0 <= i < |fs| ==> written[i]
    ensures SeenOrKept(rows, UpsertSome(rows, fs, written, now), id, fs, now)
  {
    hide Id, SeenRow, Upsert;
    if fs != [] {
      var n := |fs| - 1;
      var front, last := fs[..n], fs[n];
      var mid := UpsertSome(rows, front, written[..n], now);
      assert fs == front + [last];
      IdsConcat(front, [last]);
      UpsertsSeen(rows, front, written[..n], now, id);
      if Id(last) == id {
        OwnUpsert(rows, mid, front, last, now);
      } else {
        OtherUpsert(rows, mid, front, last, id, now);
      }
    }
  }

  /**
    After a pass whose writes succeed: the row of a reported finding is as above, a row that the pass
    resolved keeps all but its state and carries the time, and every other row is as it was.
  */
  lemma PassWrites(rows: Rows, rules: seq<Rule>, s: Snapshot, written: seq<bool>, resolved: bool, now: int, id: string)
    requires |written| == |Reports(rules, s)| && forall i :: 0 <= i < |written| ==> written[i]
    ensures var rows' := PassRows(rows, rules, s, written, resolved, now);
      if id in Ids(Reports(rules, s)) then SeenRow(rows, rows', id, Reports(rules, s), now)
      else
        && (id in rows' <==> id in rows)
        && (id in rows ==> rows'[id] == rows[id] || rows'[id] == rows[id].(state := Resolved, resolvedAt := Some(now)))
  {
    UpsertsSeen(rows, Reports(rules, s), written, now, id);
    var reports := Reports(rules, s);
    ResolveKeeps(UpsertSome(rows, reports, written, now), s.instance, Ran(rules, s), Ids(reports), now);
  }

  // ---- rows of other instances ----

  /** No row of another instance changed or appeared. */
  ghost predicate OthersKept(rows: Rows, rows': Rows, instance: string) {
    && (forall id :: id in rows && rows[id].instance != Some(instance) ==> id in rows' && rows'[id] == rows[id])
    && (forall id :: id in rows' && rows'[id].instance != Some(instance) ==> id in rows)
  }

  /** Whatever is in the table and whatever calls of the store fail, the pass keeps to its instance. */
  ghost predicate KeepsToInstance(rules: seq<Rule>, s: Snapshot) {
    forall rows, written, resolved, now | TableOk(rows) && |written| == |Reports(rules, s)| ::
      OthersKept(rows, PassRows(rows, rules, s, written, resolved, now), s.instance)
  }

  lemma OwnReportsKept(rows: Rows, rules: seq<Rule>, s: Snapshot, written: seq<bool>, resolved: bool, now: int)
    requires TableOk(rows) && |written| == |Reports(rules, s)|
    requires forall f :: f in Reports(rules, s) ==> ReportOk(f, s.instance)
    ensures OthersKept(rows, PassRows(rows, rules, s, written, resolved, now), s.instance)
  {
    var reports := Reports(rules, s);
    var mid := UpsertSome(rows, reports, written, now);
    UpsertSomeOk(rows, reports, written, s.instance, now);
    ResolveKeeps(mid, s.instance, Ran(rules, s), Ids(reports), now);
    forall id | id in rows ensures rows[id].instance == mid[id].instance { KeptOwner(rows, mid, id); }
  }

  lemma {:induction false} NoneWritten(rows: Rows, fs: seq<Finding>, written: seq<bool>, now: int)
    requires |written| == |fs| && forall i :: 0 <= i < |fs| ==> !written[i]
    ensures UpsertSome(rows, fs, written, now) == rows
  {
    if fs != [] { NoneWritten(rows, fs[..|fs| - 1], written[..|fs| - 1], now); }
  }

  /** One report is written, and no other. */
  lemma OneWritten(rows: Rows, fs: seq<Finding>, i: nat, now: int) returns (written: seq<bool>)
    requires i < |fs|
    ensures |written| == |fs| && UpsertSome(rows, fs, written, now) == Upsert(rows, fs[i], now)
  {
    var before, after := seq(i, _ => false), seq(|fs| - i - 1, _ => false);
    written := before + [true] + after;
    NoneWritten(rows, fs[..i], before, now);
    assert fs[..i + 1][..i] == fs[..i] && (before + [true])[..i] == before;
    NoneWritten(Upsert(rows, fs[i], now), fs[i + 1..], after, now);
    UpsertSomeConcat(rows, fs[..i + 1], fs[i + 1..], before + [true], after, now);
    assert fs == fs[..i + 1] + fs[i + 1..];
  }

  /**
    The pass itself does not look at the instance of a report. Where each report is well formed for the
    instance it names, the pass keeps to its instance if and only if every report names that one.
  */
  lemma KeepsToInstanceExactly(rules: seq<Rule>, s: Snapshot)
    requires forall f :: f in Reports(rules, s) ==> f.instance.Some? && ReportOk(f, f.instance.value)
    ensures KeepsToInstance(rules, s) <==> forall f :: f in Reports(rules, s) ==> f.instance == Some(s.instance)
  {
    if forall f :: f in Reports(rules, s) ==> f.instance == Some(s.instance) {
      forall rows, written, resolved, now | TableOk(rows) && |written| == |Reports(rules, s)|
        ensures OthersKept(rows, PassRows(rows, rules, s, written, resolved, now), s.instance)
      {
        OwnReportsKept(rows, rules, s, written, resolved, now);
      }
    } else {
      var fs := Reports(rules, s);
      var i :| 0 <= i < |fs| && fs[i].instance != Some(s.instance);
      var written := OneWritten(map[], fs, i, 0);
      assert TableOk(map[]);
      assert Id(fs[i]) in PassRows(map[], rules, s, written, false, 0);
      assert !OthersKept(map[], PassRows(map[], rules, s, written, false, 0), s.instance);
    }
  }
}
