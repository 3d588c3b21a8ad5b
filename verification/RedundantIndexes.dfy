/** The columns of an index definition, and the indexes whose columns another one extends. */
module RedundantIndexes {
  import opened Texts

  // ---- the columns of a definition ----

  predicate Blank(c: char) {
    c in " \t\n\U{B}\U{C}\r"
  }

  function TrimLeft(s: string): string {
    if s != "" && Blank(s[0]) then TrimLeft(s[1..]) else s
  }

  function Trim(s: string): string
    decreases |s|
  {
    if s != "" && Blank(s[|s| - 1]) then Trim(s[..|s| - 1]) else TrimLeft(s)
  }

  /** What one character does to the depth of parentheses. */
  function Deeper(c: char): int {
    if c == '(' then 1 else if c == ')' then -1 else 0
  }

  /** The parenthesis at or after i that brings the depth to zero, or -1. */
  function CloseAt(def: string, i: nat, depth: int): (end: int)
    ensures end == -1 || i <= end < |def|
    decreases |def| - i
  {
    if i >= |def| then -1
    else if def[i] == ')' && depth == 1 then i
    else CloseAt(def, i + 1, depth + Deeper(def[i]))
  }

  /** The columns from `begin` to `end`, the first of them read as far as i. */
  function ColumnsFrom(def: string, begin: nat, i: nat, end: nat, depth: int): seq<string>
    requires begin <= i <= end <= |def|
    decreases end - i
  {
    if i == end then [Trim(def[begin..end])]
    else if def[i] == ',' && depth == 0 then [Trim(def[begin..i])] + ColumnsFrom(def, i + 1, i + 1, end, 0)
    else ColumnsFrom(def, begin, i + 1, end, depth + Deeper(def[i]))
  }

  function FirstOpen(def: string, i: nat): (start: int)
    ensures start == -1 || (i <= start < |def| && def[start] == '(')
    decreases |def| - i
  {
    if i >= |def| then -1 else if def[i] == '(' then i else FirstOpen(def, i + 1)
  }

  datatype Columns = NoColumns | Columns(names: seq<string>)

  function ColumnsOf(def: string): Columns {
    var start := FirstOpen(def, 0);
    if start < 0 then NoColumns
    else
      var end := CloseAt(def, start, 0);
      if end <= start + 1 then NoColumns else Columns(ColumnsFrom(def, start + 1, start + 1, end, 0))
  }

  method IndexColumns(def: string) returns (names: seq<string>, ok: bool)
    ensures (if ok then Columns(names) else NoColumns) == ColumnsOf(def)
  {
    var start := 0;
    while start < |def| && def[start] != '('
      invariant 0 <= start <= |def| && FirstOpen(def, start) == FirstOpen(def, 0)
    {
      start := start + 1;
    }
    if start == |def| {
      return [], false;
    }
    var end := Matching(def, start);
    if end <= start + 1 {
      return [], false;
    }
    names := SplitColumns(def, start + 1, end);
    return names, true;
  }

  method Matching(def: string, start: nat) returns (end: int)
    ensures end == CloseAt(def, start, 0)
  {
    var depth, i := 0, start;
    while i < |def|
      invariant start <= i && CloseAt(def, i, depth) == CloseAt(def, start, 0)
      decreases |def| - i
    {
      if def[i] == '(' {
        depth := depth + 1;
      } else if def[i] == ')' {
        depth := depth - 1;
        if depth == 0 {
          return i;
        }
      }
      i := i + 1;
    }
    return -1;
  }

  method SplitColumns(def: string, start: nat, end: nat) returns (names: seq<string>)
    requires start <= end <= |def|
    ensures names == ColumnsFrom(def, start, start, end, 0)
  {
    hide Trim;
    names := [];
    var begin, depth, i := start, 0, start;
    while i < end
      invariant start <= begin <= i <= end
      invariant names + ColumnsFrom(def, begin, i, end, depth) == ColumnsFrom(def, start, start, end, 0)
    {
      if def[i] == '(' {
        depth := depth + 1;
      } else if def[i] == ')' {
        depth := depth - 1;
      } else if def[i] == ',' && depth == 0 {
        names := names + [Trim(def[begin..i])];
        begin := i + 1;
      }
      i := i + 1;
    }
    names := names + [Trim(def[begin..end])];
  }

  // ---- a definition with given columns ----

  /** Parentheses balance from i on, and a comma stands only inside them. */
  predicate Balanced(c: string, i: nat, depth: nat)
    requires i <= |c|
    decreases |c| - i
  {
    if i == |c| then depth == 0
    else if c[i] == ')' then depth > 0 && Balanced(c, i + 1, depth - 1)
    else if c[i] == ',' then depth > 0 && Balanced(c, i + 1, depth)
    else Balanced(c, i + 1, depth + Deeper(c[i]))
  }

  predicate ColumnOk(c: string) {
    c != "" && !Blank(c[0]) && !Blank(c[|c| - 1]) && Balanced(c, 0, 0)
  }

  /** The columns, separated as PostgreSQL prints them. */
  function Join(names: seq<string>): string
    requires names != []
  {
    if |names| == 1 then names[0] else names[0] + (", " + Join(names[1..]))
  }

  /** A column does not close a parenthesis that was open before it. */
  lemma {:induction false} ClosePasses(def: string, j: nat, c: string, i: nat, depth: nat, outer: nat)
    requires i <= |c| && Spans(def, j, c) && Balanced(c, i, depth) && outer >= 1
    ensures CloseAt(def, j + i, outer + depth) == CloseAt(def, j + |c|, outer)
    decreases |c| - i
  {
    if i < |c| {
      assert def[j + i] == c[i];
      ClosePasses(def, j, c, i + 1, depth + Deeper(c[i]), outer);
    }
  }

  /** A column holds no separator. */
  lemma {:induction false} SplitPasses(def: string, begin: nat, j: nat, c: string, i: nat, depth: nat, end: nat)
    requires i <= |c| && Spans(def, j, c) && Balanced(c, i, depth) && begin <= j && j + |c| <= end <= |def|
    ensures ColumnsFrom(def, begin, j + i, end, depth) == ColumnsFrom(def, begin, j + |c|, end, 0)
    decreases |c| - i
  {
    if i < |c| {
      assert def[j + i] == c[i];
      SplitPasses(def, begin, j, c, i + 1, depth + Deeper(c[i]), end);
    }
  }

  /** Where the first column ends and the rest of the list begins. */
  lemma JoinCut(def: string, j: nat, names: seq<string>)
    requires |names| > 1 && Spans(def, j, Join(names))
    ensures var k := j + |names[0]|;
            && Spans(def, j, names[0]) && CharAt(def, k, ',') && CharAt(def, k + 1, ' ')
              && Spans(def, k + 2, Join(names[1..]))
            && |Join(names)| == |names[0]| + 2 + |Join(names[1..])|
  {
    var rest := Join(names[1..]);
    Split(def, j, names[0], ", " + rest);
    Split(def, j + |names[0]|, ", ", rest);
    Letter(def, j + |names[0]|, ", ", 0);
    Letter(def, j + |names[0]|, ", ", 1);
  }

  lemma {:induction false} JoinCloses(def: string, j: nat, names: seq<string>)
    requires names != [] && (forall c :: c in names ==> ColumnOk(c)) && Spans(def, j, Join(names))
    ensures CloseAt(def, j, 1) == CloseAt(def, j + |Join(names)|, 1)
    decreases |names|
  {
    hide Spans;
    assert ColumnOk(names[0]);
    if |names| == 1 {
      ClosePasses(def, j, names[0], 0, 0, 1);
    } else {
      var k := j + |names[0]|;
      JoinCut(def, j, names);
      ClosePasses(def, j, names[0], 0, 0, 1);
      assert CloseAt(def, k, 1) == CloseAt(def, k + 1, 1) == CloseAt(def, k + 2, 1);
      JoinCloses(def, k + 2, names[1..]);
    }
  }

  lemma TrimIs(c: string)
    requires ColumnOk(c)
    ensures Trim(c) == c && Trim([' '] + c) == c
  {
    var s := [' '] + c;
    assert s[|s| - 1] == c[|c| - 1] && s[1..] == c;
    assert TrimLeft(s) == TrimLeft(c) == c;
  }

  /** The text of a column, with or without the blank that follows a separator. */
  lemma ColumnText(def: string, begin: nat, j: nat, c: string)
    requires ColumnOk(c) && Spans(def, j, c) && (begin == j || (begin + 1 == j && def[begin] == ' '))
    ensures Trim(def[begin..j + |c|]) == c
  {
    TrimIs(c);
    assert def[begin..j + |c|] == if begin == j then c else [' '] + c;
  }

  lemma SeparatorSplits(def: string, begin: nat, k: nat, end: nat)
    requires begin <= k && k + 2 <= end <= |def| && def[k] == ',' && def[k + 1] == ' '
    ensures ColumnsFrom(def, begin, k, end, 0) == [Trim(def[begin..k])] + ColumnsFrom(def, k + 1, k + 2, end, 0)
  {
    assert ColumnsFrom(def, k + 1, k + 1, end, 0) == ColumnsFrom(def, k + 1, k + 2, end, 0);
  }

  lemma {:induction false} JoinSplits(def: string, begin: nat, j: nat, names: seq<string>, end: nat)
    requires names != [] && (forall c :: c in names ==> ColumnOk(c)) && Spans(def, j, Join(names))
    requires end == j + |Join(names)|
    requires begin == j || (begin + 1 == j && def[begin] == ' ')
    ensures ColumnsFrom(def, begin, j, end, 0) == names
    decreases |names|
  {
    hide Trim;
    var c := names[0];
    assert ColumnOk(c);
    if |names| == 1 {
      SplitPasses(def, begin, j, c, 0, 0, end);
      ColumnText(def, begin, j, c);
      assert names == [c];
    } else {
      var k := j + |c|;
      JoinCut(def, j, names);
      SplitPasses(def, begin, j, c, 0, 0, end);
      ColumnText(def, begin, j, c);
      SeparatorSplits(def, begin, k, end);
      JoinSplits(def, k + 1, k + 2, names[1..], end);
      assert names == [c] + names[1..];
    }
  }

  lemma {:induction false} FirstOpenIs(def: string, i: nat, start: nat)
    requires i <= start < |def| && def[start] == '(' && forall k :: i <= k < start ==> def[k] != '('
    ensures FirstOpen(def, i) == start
    decreases start - i
  {
    if i < start { FirstOpenIs(def, i + 1, start); }
  }

  lemma JoinNotEmpty(names: seq<string>)
    requires names != [] && forall c :: c in names ==> ColumnOk(c)
    ensures Join(names) != ""
  {
    assert ColumnOk(names[0]);
  }

  lemma ColumnsAt(def: string, start: nat, names: seq<string>, end: nat)
    requires names != [] && forall c :: c in names ==> ColumnOk(c)
    requires FirstOpen(def, 0) == start && Spans(def, start + 1, Join(names)) && end == start + 1 + |Join(names)|
    requires CharAt(def, end, ')')
    ensures ColumnsOf(def) == Columns(names)
  {
    JoinNotEmpty(names);
    JoinCloses(def, start + 1, names);
    assert CloseAt(def, start, 0) == CloseAt(def, start + 1, 1) == CloseAt(def, end, 1) == end;
    JoinSplits(def, start + 1, start + 1, names, end);
  }

  /** Reading the columns back gives the list that was printed, whatever stands before and after it. */
  lemma ColumnsRoundTrip(prefix: string, names: seq<string>, suffix: string)
    requires '(' !in prefix && names != [] && forall c :: c in names ==> ColumnOk(c)
    ensures ColumnsOf(prefix + ("(" + (Join(names) + (")" + suffix)))) == Columns(names)
  {
    var list := Join(names);
    var def, start := prefix + ("(" + (list + (")" + suffix))), |prefix|;
    Printed(prefix, list, suffix, def);
    FirstOpenIs(def, 0, start);
    ColumnsAt(def, start, names, start + 1 + |list|);
  }

  lemma Printed(prefix: string, list: string, suffix: string, def: string)
    requires def == prefix + ("(" + (list + (")" + suffix))) && '(' !in prefix
    ensures CharAt(def, |prefix|, '(') && Spans(def, |prefix| + 1, list) && CharAt(def, |prefix| + 1 + |list|, ')')
    ensures forall k :: 0 <= k < |prefix| ==> def[k] != '('
  {
    var start := |prefix|;
    assert Spans(def, 0, def);
    Split(def, 0, prefix, "(" + (list + (")" + suffix)));
    Split(def, start, "(", list + (")" + suffix));
    Split(def, start + 1, list, ")" + suffix);
    Letter(def, start, "(", 0);
    Letter(def, start + 1 + |list|, ")" + suffix, 0);
  }

  // ---- redundant prefixes ----

  datatype Index = Index(datname: string, table: string, def: string, unique: bool)

  predicate Prefix(a: seq<string>, b: seq<string>) {
    |a| < |b| && forall i :: 0 <= i < |a| ==> Lower(a[i]) == Lower(b[i])
  }

  method IsPrefix(a: seq<string>, b: seq<string>) returns (yes: bool)
    ensures yes == Prefix(a, b)
  {
    if |a| >= |b| {
      return false;
    }
    for i := 0 to |a|
      invariant forall j :: 0 <= j < i ==> Lower(a[j]) == Lower(b[j])
    {
      if Lower(a[i]) != Lower(b[i]) {
        return false;
      }
    }
    return true;
  }

  /** How the access method and the predicate are read from a definition. */
  datatype Reader = Reader(method_: string -> string, predicate_: string -> string)

  /** Index b serves every query that index a serves by its columns. */
  predicate Extends(ix: seq<Index>, how: Reader, a: nat, b: nat)
    requires a < |ix| && b < |ix|
  {
    && a != b && ix[a].datname == ix[b].datname && ix[a].table == ix[b].table && !ix[a].unique
    && how.method_(ix[a].def) == how.method_(ix[b].def)
    && (how.method_(ix[b].def) == "" || how.method_(ix[b].def) == "btree")
    && how.predicate_(ix[a].def) == how.predicate_(ix[b].def)
    && ColumnsOf(ix[a].def).Columns? && ColumnsOf(ix[b].def).Columns?
    && Prefix(ColumnsOf(ix[a].def).names, ColumnsOf(ix[b].def).names)
  }

  predicate Redundant(ix: seq<Index>, how: Reader, a: nat)
    requires a < |ix|
  {
    exists b :: 0 <= b < |ix| && Extends(ix, how, a, b)
  }

  /** b is the first index that extends a. */
  ghost predicate FirstExtends(ix: seq<Index>, how: Reader, a: nat, b: nat)
    requires a < |ix| && b < |ix|
  {
    Extends(ix, how, a, b) && forall k :: 0 <= k < b ==> !Extends(ix, how, a, k)
  }

  datatype Finding = Finding(prefix: nat, extended: nat)

  /** The findings about the first n indexes: each redundant one once, with the first that extends it. */
  ghost predicate FindingsFor(ix: seq<Index>, how: Reader, n: nat, out: seq<Finding>)
    requires n <= |ix|
  {
    && (forall i :: 0 <= i < |out| ==>
          out[i].prefix < n && out[i].extended < |ix| && FirstExtends(ix, how, out[i].prefix, out[i].extended))
    && (forall i, j :: 0 <= i < j < |out| ==> out[i].prefix < out[j].prefix)
    && (forall a :: 0 <= a < n && Redundant(ix, how, a) ==> exists i :: 0 <= i < |out| && out[i].prefix == a)
  }

  /** The first index that extends a given one. */
  method FirstExtending(ix: seq<Index>, how: Reader, a: nat, names: seq<string>) returns (found: bool, b: nat)
    requires a < |ix| && ColumnsOf(ix[a].def) == Columns(names)
    ensures found == Redundant(ix, how, a)
    ensures found ==> b < |ix| && FirstExtends(ix, how, a, b)
  {
    b := 0;
    while b < |ix|
      invariant b <= |ix| && forall k :: 0 <= k < b ==> !Extends(ix, how, a, k)
    {
      if !(a == b || ix[a].datname != ix[b].datname || ix[a].table != ix[b].table || ix[a].unique) {
        var m := how.method_(ix[b].def);
        if !(how.method_(ix[a].def) != m || (m != "" && m != "btree"))
          && how.predicate_(ix[a].def) == how.predicate_(ix[b].def) {
          var others, ok := IndexColumns(ix[b].def);
          if ok {
            var yes := IsPrefix(names, others);
            if yes {
              assert Extends(ix, how, a, b);
              return true, b;
            }
          }
        }
      }
      b := b + 1;
    }
    return false, 0;
  }

  method RedundantPrefixes(ix: seq<Index>, how: Reader) returns (out: seq<Finding>)
    ensures FindingsFor(ix, how, |ix|, out)
  {
    out := [];
    for a := 0 to |ix|
      invariant FindingsFor(ix, how, a, out)
    {
      ghost var before := out;
      var names, ok := IndexColumns(ix[a].def);
      if ok {
        var found, b := FirstExtending(ix, how, a, names);
        if found {
          out := out + [Finding(a, b)];
          assert out[|out| - 1].prefix == a;
        }
      }
      OneMoreFinding(ix, how, a, before, out);
    }
  }

  lemma OneMoreFinding(ix: seq<Index>, how: Reader, a: nat, before: seq<Finding>, out: seq<Finding>)
    requires a < |ix| && FindingsFor(ix, how, a, before)
    requires if Redundant(ix, how, a)
             then exists b :: 0 <= b < |ix| && out == before + [Finding(a, b)] && FirstExtends(ix, how, a, b)
             else out == before
    ensures FindingsFor(ix, how, a + 1, out)
  {
    forall x | 0 <= x <= a && Redundant(ix, how, x) ensures exists i :: 0 <= i < |out| && out[i].prefix == x {
      if x < a {
        var i :| 0 <= i < |before| && before[i].prefix == x;
        assert out[i].prefix == x;
      } else {
        assert out[|out| - 1].prefix == x;
      }
    }
  }

  /** The columns of one definition are the first columns of the other, which has more. */
  predicate FirstColumns(a: string, b: string) {
    && ColumnsOf(a).Columns? && ColumnsOf(b).Columns? && |ColumnsOf(a).names| < |ColumnsOf(b).names|
    && forall i :: 0 <= i < |ColumnsOf(a).names| ==> Lower(ColumnsOf(a).names[i]) == Lower(ColumnsOf(b).names[i])
  }

  /** Two btree indexes of one table, with one predicate, of which the first is not there to keep values unique. */
  predicate SameKind(a: Index, b: Index, how: Reader) {
    && a.datname == b.datname && a.table == b.table && !a.unique
    && how.method_(a.def) in {"", "btree"} && how.method_(a.def) == how.method_(b.def)
    && how.predicate_(a.def) == how.predicate_(b.def)
  }

  /** What a finding says of its two indexes, and that the first of every such pair has one. */
  lemma FindingsMean(ix: seq<Index>, how: Reader, out: seq<Finding>)
    requires FindingsFor(ix, how, |ix|, out)
    ensures forall f :: f in out ==>
      && f.prefix < |ix| && f.extended < |ix| && f.prefix != f.extended
      && SameKind(ix[f.prefix], ix[f.extended], how) && FirstColumns(ix[f.prefix].def, ix[f.extended].def)
    ensures forall a, b :: 0 <= a < |ix| && 0 <= b < |ix| && a != b ==>
      SameKind(ix[a], ix[b], how) && FirstColumns(ix[a].def, ix[b].def) ==> exists f :: f in out && f.prefix == a
  {
    forall a, b | 0 <= a < |ix| && 0 <= b < |ix| && Extends(ix, how, a, b)
      ensures exists f :: f in out && f.prefix == a
    {
      assert Redundant(ix, how, a);
      var i :| 0 <= i < |out| && out[i].prefix == a;
      assert out[i] in out;
    }
    forall a, b | 0 <= a < |ix| && 0 <= b < |ix| && a != b && SameKind(ix[a], ix[b], how)
      && FirstColumns(ix[a].def, ix[b].def)
      ensures Extends(ix, how, a, b)
    {}
  }

  lemma ExtendsTransitive(ix: seq<Index>, how: Reader, a: nat, b: nat, c: nat)
    requires a < |ix| && b < |ix| && c < |ix| && Extends(ix, how, a, b) && Extends(ix, how, b, c)
    ensures Extends(ix, how, a, c)
  {
  }

  function Longest(ix: seq<Index>): (n: nat)
    ensures forall i :: 0 <= i < |ix| && ColumnsOf(ix[i].def).Columns? ==> |ColumnsOf(ix[i].def).names| <= n
  {
    if ix == [] then 0
    else
      var rest := Longest(ix[1..]);
      assert forall i :: 0 < i < |ix| ==> ix[i] == ix[1..][i - 1];
      if ColumnsOf(ix[0].def).Columns? && |ColumnsOf(ix[0].def).names| > rest then |ColumnsOf(ix[0].def).names|
        else rest
  }

  /** Every redundant index is extended by one that is not redundant: what is reported can all be dropped. */
  lemma {:induction false} KeptIndexExtends(ix: seq<Index>, how: Reader, a: nat) returns (c: nat)
    requires a < |ix| && Redundant(ix, how, a)
    ensures c < |ix| && Extends(ix, how, a, c) && !Redundant(ix, how, c)
    decreases Longest(ix) - |ColumnsOf(ix[a].def).names|
  {
    var b :| 0 <= b < |ix| && Extends(ix, how, a, b);
    if Redundant(ix, how, b) {
      c := KeptIndexExtends(ix, how, b);
      ExtendsTransitive(ix, how, a, b, c);
    } else {
      c := b;
    }
  }

  /** The same about the findings: no finding names the index that stays. */
  lemma ReportedHaveKeptExtension(ix: seq<Index>, how: Reader, out: seq<Finding>, f: Finding)
    requires FindingsFor(ix, how, |ix|, out) && f in out
    ensures f.prefix < |ix|
    ensures exists c :: 0 <= c < |ix| && Extends(ix, how, f.prefix, c) && forall other :: other in out ==>
      other.prefix != c
  {
    var c := KeptIndexExtends(ix, how, f.prefix);
    forall other | other in out ensures other.prefix != c {
      assert Redundant(ix, how, other.prefix);
    }
  }
}
