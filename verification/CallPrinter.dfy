/**
  Expressions as PostgreSQL prints them in a plan, and how the scanner reads their names, types and
  literals.
*/
module CallPrinter {
  import opened CallScanner
  import opened Texts

  // ---- what is printed ----

  datatype Name = Plain(text: string) | Quoted(text: string)

  datatype Dotted = Single(name: Name) | Qualified(name: Name, rest: Dotted)

  /** A type name after its first word: a modifier, array bounds, and further words. */
  datatype TypeRest =
    | Last(modifier: Modifier, bounds: Bounds)
    | More(modifier: Modifier, bounds: Bounds, word: string, rest: TypeRest)

  datatype Modifier = NoModifier | Modifier(text: string)
  datatype Bounds = NoBounds | Bound(text: string, rest: Bounds)

  datatype Atom =
    | Column(name: Dotted)
    | Literal(text: string)
    | EscapeLiteral(text: string)
    | Number(text: string)
    | Parameter(digits: string)

  /** Special is a keyword with arguments: COALESCE(a, b), or ARRAY[a, b] with brackets. */
  datatype Expr =
    | Leaf(atom: Atom)
    | Call(function_: Dotted, args: Args)
    | Special(word: string, brackets: bool, args: Args)
    | Group(items: Items)
    | Cast(operand: Expr, name: Dotted, rest: TypeRest)
    | Subscript(operand: Expr, index: Items)

  datatype Item = Operand(e: Expr) | Keyword(word: string) | Operator(symbol: string)
  datatype Items = LastItem(item: Item) | Item(item: Item, rest: Items)
  datatype Args = NoArgs | LastArg(arg: Items) | Arg(arg: Items, rest: Args)

  function Doubled(s: string, marks: string): string {
    if s == "" then "" else (if s[0] in marks then [s[0], s[0]] else [s[0]]) + Doubled(s[1..], marks)
  }

  function PrintName(n: Name): string {
    match n
    case Plain(t) => t
    case Quoted(t) => "\"" + (Doubled(t, "\"") + "\"")
  }

  function PrintDotted(d: Dotted): string {
    match d
    case Single(n) => PrintName(n)
    case Qualified(n, rest) => PrintName(n) + ("." + PrintDotted(rest))
  }

  function PrintModifier(m: Modifier): string {
    match m
    case NoModifier => ""
    case Modifier(t) => "(" + (t + ")")
  }

  function PrintBounds(b: Bounds): string {
    match b
    case NoBounds => ""
    case Bound(t, rest) => "[" + (t + ("]" + PrintBounds(rest)))
  }

  function PrintTypeRest(r: TypeRest): string {
    PrintModifier(r.modifier) + (PrintBounds(r.bounds) + if r.Last? then "" else " " + (r.word + PrintTypeRest(r.rest)))
  }

  function PrintAtom(a: Atom): string {
    match a
    case Column(n) => PrintDotted(n)
    case Literal(t) => "'" + (Doubled(t, "'") + "'")
    case EscapeLiteral(t) => "E" + ("'" + (Doubled(t, "'\\") + "'"))
    case Number(t) => t
    case Parameter(ds) => "$" + ds
  }

  function Open(brackets: bool): char {
    if brackets then '[' else '('
  }

  function Close(brackets: bool): char {
    if brackets then ']' else ')'
  }

  function Print(e: Expr): string {
    match e
    case Leaf(a) => PrintAtom(a)
    case Call(n, args) => PrintDotted(n) + ("(" + (PrintArgs(args) + ")"))
    case Special(w, brackets, args) => w + ([Open(brackets)] + (PrintArgs(args) + [Close(brackets)]))
    case Group(items) => "(" + (PrintItems(items) + ")")
    case Cast(e', n, rest) => Print(e') + ("::" + (PrintDotted(n) + PrintTypeRest(rest)))
    case Subscript(e', index) => Print(e') + ("[" + (PrintItems(index) + "]"))
  }

  function PrintItem(i: Item): string {
    match i
    case Operand(e) => Print(e)
    case Keyword(w) => w
    case Operator(op) => op
  }

  function PrintItems(items: Items): string {
    match items
    case LastItem(i) => PrintItem(i)
    case Item(i, rest) => PrintItem(i) + (" " + PrintItems(rest))
  }

  function PrintArgs(args: Args): string {
    match args
    case NoArgs => ""
    case LastArg(a) => PrintItems(a)
    case Arg(a, rest) => PrintItems(a) + (", " + PrintArgs(rest))
  }

  // ---- what is well formed ----

  predicate Every(s: string, member: char -> bool) {
    forall k :: 0 <= k < |s| ==> member(s[k])
  }

  predicate IdentOk(s: string) {
    s != "" && IdentStart(s[0]) && Every(s, IdentByte)
  }

  /** A name that is not all lower case is printed in quotes. */
  predicate NameOk(n: Name) {
    n.Plain? ==> IdentOk(n.text) && Lower(n.text) == n.text
  }

  predicate DottedOk(d: Dotted) {
    NameOk(d.name) && (d.Qualified? ==> DottedOk(d.rest))
  }

  /** Keywords are printed in upper case. */
  predicate WordOk(w: string) {
    IdentOk(w) && Lower(w) != w
  }

  predicate OperatorByte(c: char) {
    || c == '+' || c == '-' || c == '*' || c == '/' || c == '<' || c == '>' || c == '=' || c == '~' || c == '!'
    || c == '@' || c == '#' || c == '%' || c == '^' || c == '&' || c == '|' || c == '`' || c == '?'
  }

  /** An operator holds no comment mark. */
  predicate OperatorOk(op: string) {
    && op != "" && Every(op, OperatorByte)
    && forall k :: 0 <= k < |op| - 1 ==> !(op[k] == '-' && op[k + 1] == '-') && !(op[k] == '/' && op[k + 1] == '*')
  }

  predicate BoundsOk(b: Bounds) {
    b.Bound? ==> Every(b.text, Digit) && BoundsOk(b.rest)
  }

  predicate TypeRestOk(r: TypeRest, words: set<string>) {
    && (r.modifier.Modifier? ==> Every(r.modifier.text, ModifierByte)) && BoundsOk(r.bounds)
    && (r.More? ==> TypeWordOk(r.word, words) && TypeRestOk(r.rest, words))
  }

  predicate TypeWordOk(w: string, words: set<string>) {
    w != "" && Every(w, IdentByte) && Lower(w) in words
  }

  predicate AtomOk(a: Atom) {
    match a
    case Column(n) => DottedOk(n)
    case Literal(_) => true
    case EscapeLiteral(_) => true
    case Number(t) => t != "" && Digit(t[0]) && Every(t, NumberByte)
    case Parameter(ds) => ds != "" && Every(ds, Digit)
  }

  predicate ExprOk(e: Expr, words: set<string>) {
    match e
    case Leaf(a) => AtomOk(a)
    case Call(n, args) => DottedOk(n) && ArgsOk(args, words)
    case Special(w, _, args) => WordOk(w) && ArgsOk(args, words)
    case Group(items) => ItemsOk(items, words)
    case Cast(e', n, rest) => ExprOk(e', words) && DottedOk(n) && TypeRestOk(rest, words)
    case Subscript(e', index) => ExprOk(e', words) && !e'.Cast? && ItemsOk(index, words)
  }

  predicate ItemOk(i: Item, words: set<string>) {
    match i
    case Operand(e) => ExprOk(e, words)
    case Keyword(w) => WordOk(w)
    case Operator(op) => OperatorOk(op)
  }

  /** An operand is followed by an operator or a keyword. */
  predicate MayFollow(i: Item, next: Item) {
    i.Operand? ==> !next.Operand?
  }

  predicate ItemsOk(items: Items, words: set<string>) {
    ItemOk(items.item, words) && (items.Item? ==> ItemsOk(items.rest, words) && MayFollow(items.item, items.rest.item))
  }

  predicate ArgsOk(args: Args, words: set<string>) {
    match args
    case NoArgs => true
    case LastArg(a) => ItemsOk(a, words)
    case Arg(a, rest) => ItemsOk(a, words) && ArgsOk(rest, words)
  }

  // ---- the calls of an expression ----

  function PartsOf(d: Dotted): (parts: seq<string>)
    ensures |parts| >= 1
  {
    [d.name.text] + if d.Single? then [] else PartsOf(d.rest)
  }

  function CallsOf(e: Expr): seq<FuncRef> {
    match e
    case Leaf(_) => []
    case Call(n, args) => [RefOf(PartsOf(n))] + CallsOfArgs(args)
    case Special(_, _, args) => CallsOfArgs(args)
    case Group(items) => CallsOfItems(items)
    case Cast(e', _, _) => CallsOf(e')
    case Subscript(e', index) => CallsOf(e') + CallsOfItems(index)
  }

  function CallsOfItems(items: Items): seq<FuncRef> {
    (if items.item.Operand? then CallsOf(items.item.e) else []) + (if items.Item? then CallsOfItems(items.rest) else [])
  }

  function CallsOfArgs(args: Args): seq<FuncRef> {
    match args
    case NoArgs => []
    case LastArg(a) => CallsOfItems(a)
    case Arg(a, rest) => CallsOfItems(a) + CallsOfArgs(rest)
  }

  // ---- texts and runs ----

  lemma {:induction false} RunIs(text: string, i: nat, j: nat, member: char -> bool)
    requires i <= j <= |text| && All(text, i, j, member) && (j < |text| ==> !member(text[j]))
    ensures RunEnd(text, i, member) == j
    decreases j - i
  {
    if i < j { RunIs(text, i + 1, j, member); }
  }

  lemma RunOf(text: string, i: nat, s: string, member: char -> bool)
    requires Spans(text, i, s) && Every(s, member)
    requires var j := i + |s|; j < |text| ==> !member(text[j])
    ensures RunEnd(text, i, member) == i + |s|
  {
    AllOf(text, i, s, member);
    RunIs(text, i, i + |s|, member);
  }

  lemma AllOf(text: string, i: nat, s: string, member: char -> bool)
    requires Spans(text, i, s) && Every(s, member)
    ensures All(text, i, i + |s|, member)
  {
    forall k | i <= k < i + |s| ensures member(text[k]) { Letter(text, i, s, k - i); }
  }

  // ---- names ----

  /** Passes over the first character of a quoted name, which may be a doubled quote. */
  lemma SplitQuoted(text: string, j: nat, t: string)
    requires t != "" && Spans(text, j, Doubled(t, "\"") + "\"")
    ensures var n := if t[0] == '"' then 2 else 1;
            && |Doubled(t, "\"")| == n + |Doubled(t[1..], "\"")| && Spans(text, j + n, Doubled(t[1..], "\"") + "\"")
            && QuotedName(text, j) == ([t[0]] + QuotedName(text, j + n).0, QuotedName(text, j + n).1)
  {
    var head := if t[0] == '"' then ['"', '"'] else [t[0]];
    assert Doubled(t, "\"") + "\"" == head + (Doubled(t[1..], "\"") + "\"");
    Split(text, j, head, Doubled(t[1..], "\"") + "\"");
    Letter(text, j, head, 0);
    Letter(text, j, head, |head| - 1);
  }

  lemma {:induction false} QuotedIs(text: string, j: nat, t: string)
    requires Spans(text, j, Doubled(t, "\"") + "\"") && !CharAt(text, j + |Doubled(t, "\"")| + 1, '"')
    ensures QuotedName(text, j) == (t, j + |Doubled(t, "\"")| + 1)
    decreases |t|
  {
    if t == "" {
      assert Doubled(t, "\"") + "\"" == "\"";
      Letter(text, j, "\"", 0);
    } else {
      SplitQuoted(text, j, t);
      QuotedIs(text, if t[0] == '"' then j + 2 else j + 1, t[1..]);
      assert t == [t[0]] + t[1..];
    }
  }

  /** What stands at j cannot go on a name that ends there. */
  predicate EndsName(text: string, j: nat) {
    j < |text| ==> !IdentByte(text[j]) && text[j] != '"' && text[j] != '.'
  }

  predicate EndsPart(text: string, j: nat) {
    j < |text| ==> !IdentByte(text[j]) && text[j] != '"'
  }

  lemma PartIs(text: string, i: nat, n: Name, deparsed: bool)
    requires NameOk(n) && Spans(text, i, PrintName(n)) && EndsPart(text, i + |PrintName(n)|)
    ensures NameAt(text, i)
    ensures var p := NamePart(text, i, deparsed);
            p.end == i + |PrintName(n)| && p.quoted == n.Quoted? && (deparsed ==> p.name == n.text)
  {
    Letter(text, i, PrintName(n), 0);
    if n.Plain? {
      RunOf(text, i, n.text, IdentByte);
    } else {
      Split(text, i, "\"", Doubled(n.text, "\"") + "\"");
      QuotedIs(text, i + 1, n.text);
    }
  }

  lemma SplitDotted(text: string, i: nat, d: Dotted)
    requires d.Qualified? && Spans(text, i, PrintDotted(d))
    ensures var j := i + |PrintName(d.name)|;
            Spans(text, i, PrintName(d.name)) && CharAt(text, j, '.') && Spans(text, j + 1, PrintDotted(d.rest))
    ensures |PrintDotted(d)| == |PrintName(d.name)| + 1 + |PrintDotted(d.rest)|
  {
    var j := i + |PrintName(d.name)|;
    Split(text, i, PrintName(d.name), "." + PrintDotted(d.rest));
    Split(text, j, ".", PrintDotted(d.rest));
    Letter(text, j, ".", 0);
  }

  lemma NamesStep(text: string, i: nat, deparsed: bool, p: Part, r: Reading)
    requires NameAt(text, i) && NamePart(text, i, deparsed) == p
    requires CharAt(text, p.end, '.') && NameAt(text, p.end + 1) && Names(text, p.end + 1, deparsed) == r
    ensures Names(text, i, deparsed) == r.(parts := [p.name] + r.parts)
  {
  }

  lemma NamesLast(text: string, i: nat, deparsed: bool, p: Part)
    requires NameAt(text, i) && NamePart(text, i, deparsed) == p && !CharAt(text, p.end, '.')
    ensures Names(text, i, deparsed) == Reading([p.name], deparsed && !p.quoted && p.name != Lower(p.name), p.end)
  {
  }

  lemma {:induction false} NamesAre(text: string, i: nat, d: Dotted, deparsed: bool) returns (r: Reading)
    requires DottedOk(d) && Spans(text, i, PrintDotted(d)) && EndsName(text, i + |PrintDotted(d)|)
    ensures NameAt(text, i) && Names(text, i, deparsed) == r
    ensures r.end == i + |PrintDotted(d)| && (deparsed ==> r.parts == PartsOf(d) && !r.keyword)
    decreases d
  {
    if d.Single? {
      PartIs(text, i, d.name, deparsed);
      NamesLast(text, i, deparsed, NamePart(text, i, deparsed));
      r := Names(text, i, deparsed);
    } else {
      SplitDotted(text, i, d);
      PartIs(text, i, d.name, deparsed);
      var p := NamePart(text, i, deparsed);
      var rest := NamesAre(text, p.end + 1, d.rest, deparsed);
      NamesStep(text, i, deparsed, p, rest);
      r := rest.(parts := [p.name] + rest.parts);
    }
  }

  lemma WordIs(text: string, i: nat, w: string)
    requires WordOk(w) && Spans(text, i, w) && EndsName(text, i + |w|)
    ensures NameAt(text, i) && Names(text, i, true) == Reading([w], true, i + |w|)
  {
    Letter(text, i, w, 0);
    RunOf(text, i, w, IdentByte);
    assert text[i..i + |w|] == w;
  }

  // ---- types ----

  function ModifierLength(m: Modifier): nat {
    if m.Modifier? then |m.text| + 2 else 0
  }

  function BoundsLength(b: Bounds): nat {
    if b.Bound? then |b.text| + 2 + BoundsLength(b.rest) else 0
  }

  function SuffixLength(r: TypeRest): nat {
    ModifierLength(r.modifier) + BoundsLength(r.bounds)
  }

  function RestLength(r: TypeRest): nat {
    SuffixLength(r) + if r.More? then 1 + |r.word| + RestLength(r.rest) else 0
  }

  predicate ModifierAt(text: string, i: nat, m: Modifier) {
    m.Modifier? ==> CharAt(text, i, '(') && Spans(text, i + 1, m.text) && CharAt(text, i + 1 + |m.text|, ')')
  }

  predicate BoundsAt(text: string, i: nat, b: Bounds)
    decreases b
  {
    b.Bound? ==>
      && CharAt(text, i, '[') && Spans(text, i + 1, b.text) && CharAt(text, i + 1 + |b.text|, ']')
      && BoundsAt(text, i + 2 + |b.text|, b.rest)
  }

  predicate SuffixAt(text: string, i: nat, r: TypeRest) {
    ModifierAt(text, i, r.modifier) && BoundsAt(text, i + ModifierLength(r.modifier), r.bounds)
  }

  predicate WordAfter(text: string, i: nat, w: string) {
    CharAt(text, i, ' ') && Spans(text, i + 1, w)
  }

  predicate RestAt(text: string, i: nat, r: TypeRest)
    decreases r
  {
    && SuffixAt(text, i, r)
    && (r.More? ==> WordAfter(text, i + SuffixLength(r), r.word))
    && (r.More? ==> RestAt(text, i + SuffixLength(r) + 1 + |r.word|, r.rest))
  }

  lemma PrintedModifier(text: string, i: nat, m: Modifier)
    requires Spans(text, i, PrintModifier(m))
    ensures |PrintModifier(m)| == ModifierLength(m) && ModifierAt(text, i, m)
  {
    if m.Modifier? {
      Split(text, i, "(", m.text + ")");
      Split(text, i + 1, m.text, ")");
      Letter(text, i, "(", 0);
      Letter(text, i + 1 + |m.text|, ")", 0);
    }
  }

  lemma {:induction false} PrintedBounds(text: string, i: nat, b: Bounds)
    requires Spans(text, i, PrintBounds(b))
    ensures |PrintBounds(b)| == BoundsLength(b) && BoundsAt(text, i, b)
    decreases b
  {
    if b.Bound? {
      var close := i + 1 + |b.text|;
      Split(text, i, "[", b.text + ("]" + PrintBounds(b.rest)));
      Split(text, i + 1, b.text, "]" + PrintBounds(b.rest));
      Split(text, close, "]", PrintBounds(b.rest));
      Letter(text, i, "[", 0);
      Letter(text, close, "]", 0);
      PrintedBounds(text, close + 1, b.rest);
    }
  }

  lemma PrintedWord(text: string, i: nat, w: string, rest: string)
    requires Spans(text, i, " " + (w + rest))
    ensures WordAfter(text, i, w) && Spans(text, i + 1 + |w|, rest)
  {
    Split(text, i, " ", w + rest);
    Split(text, i + 1, w, rest);
    Letter(text, i, " ", 0);
  }

  lemma PrintedSuffix(text: string, i: nat, r: TypeRest, more: string)
    requires Spans(text, i, PrintModifier(r.modifier) + (PrintBounds(r.bounds) + more))
    ensures |PrintModifier(r.modifier)| + |PrintBounds(r.bounds)| == SuffixLength(r)
    ensures SuffixAt(text, i, r) && Spans(text, i + SuffixLength(r), more)
  {
    var j := i + |PrintModifier(r.modifier)|;
    Split(text, i, PrintModifier(r.modifier), PrintBounds(r.bounds) + more);
    Split(text, j, PrintBounds(r.bounds), more);
    PrintedModifier(text, i, r.modifier);
    PrintedBounds(text, j, r.bounds);
  }

  lemma PrintedMore(text: string, i: nat, r: TypeRest, rest: string)
    requires r.More? && Spans(text, i, PrintModifier(r.modifier) + (PrintBounds(r.bounds) + (" " + (r.word + rest))))
    ensures SuffixAt(text, i, r)
    ensures WordAfter(text, i + SuffixLength(r), r.word) && Spans(text, i + SuffixLength(r) + 1 + |r.word|, rest)
  {
    PrintedSuffix(text, i, r, " " + (r.word + rest));
    PrintedWord(text, i + SuffixLength(r), r.word, rest);
  }

  lemma {:induction false} BoundsPrintLength(b: Bounds)
    ensures |PrintBounds(b)| == BoundsLength(b)
  {
    if b.Bound? { BoundsPrintLength(b.rest); }
  }

  lemma {:induction false} RestPrintLength(r: TypeRest)
    ensures |PrintTypeRest(r)| == RestLength(r)
  {
    BoundsPrintLength(r.bounds);
    assert |PrintModifier(r.modifier)| == ModifierLength(r.modifier);
    if r.More? { RestPrintLength(r.rest); }
  }

  lemma {:induction false} PrintedRest(text: string, i: nat, r: TypeRest)
    requires Spans(text, i, PrintTypeRest(r))
    ensures RestAt(text, i, r)
    decreases r
  {
    if r.Last? {
      PrintedSuffix(text, i, r, "");
    } else {
      PrintedMore(text, i, r, PrintTypeRest(r.rest));
      PrintedRest(text, i + SuffixLength(r) + 1 + |r.word|, r.rest);
    }
  }

  lemma ModifierIs(text: string, i: nat, m: Modifier)
    requires i <= |text| && ModifierAt(text, i, m) && (m.Modifier? ==> Every(m.text, ModifierByte))
    requires m.NoModifier? ==> !CharAt(text, i, '(')
    ensures ModifierEnd(text, i) == i + ModifierLength(m)
  {
    if m.Modifier? {
      AllOf(text, i + 1, m.text, ModifierByte);
      RunIs(text, i, i + 1 + |m.text|, NotParenthesis);
    }
  }

  lemma {:induction false} BoundsAre(text: string, i: nat, b: Bounds)
    requires i <= |text| && BoundsAt(text, i, b) && BoundsOk(b) && !CharAt(text, i + BoundsLength(b), '[')
    ensures BoundsEnd(text, i) == i + BoundsLength(b)
    decreases b
  {
    if b.Bound? {
      var close := i + 1 + |b.text|;
      AllOf(text, i + 1, b.text, Digit);
      RunIs(text, i, close, NotBracket);
      BoundsAre(text, close + 1, b.rest);
    }
  }

  /** What stands at j goes on neither a name nor its modifier or bounds. */
  predicate EndsWord(text: string, j: nat) {
    j <= |text| && EndsName(text, j) && !CharAt(text, j, '(') && !CharAt(text, j, '[')
  }

  /** The end of a type name that has come to j and may go on with bounds and words. */
  function TypeTail(text: string, j: nat, words: set<string>): (end: nat)
    requires j <= |text|
    ensures j <= end <= |text|
  {
    var b := BoundsEnd(text, j);
    var k := TypeWordEnd(text, b, words);
    if k == b then b else TypeRestEnd(text, k, words)
  }

  /** What stands where a type goes on after a word. */
  lemma RestHead(text: string, i: nat, r: TypeRest, end: nat)
    requires RestAt(text, i, r) && end == i + RestLength(r) && EndsWord(text, end)
    ensures EndsName(text, i) && (r.modifier.NoModifier? ==> !CharAt(text, i, '('))
    ensures i <= |text| && !CharAt(text, i + SuffixLength(r), '[')
  {
  }

  lemma SuffixIs(text: string, i: nat, r: TypeRest)
    requires i <= |text| && SuffixAt(text, i, r) && BoundsOk(r.bounds)
    requires if r.modifier.Modifier? then Every(r.modifier.text, ModifierByte) else !CharAt(text, i, '(')
    requires !CharAt(text, i + SuffixLength(r), '[')
    ensures BoundsEnd(text, ModifierEnd(text, i)) == i + SuffixLength(r)
  {
    ModifierIs(text, i, r.modifier);
    BoundsAre(text, i + ModifierLength(r.modifier), r.bounds);
  }

  lemma WordRun(text: string, i: nat, w: string)
    requires WordAfter(text, i, w) && Every(w, IdentByte) && EndsName(text, i + 1 + |w|)
    ensures RunEnd(text, i + 1, IdentByte) == i + 1 + |w| && text[i + 1..i + 1 + |w|] == w
  {
    RunOf(text, i + 1, w, IdentByte);
  }

  lemma TypeWordIs(text: string, i: nat, w: string, end: nat, words: set<string>)
    requires CharAt(text, i, ' ') && i + 1 < end <= |text| && RunEnd(text, i + 1, IdentByte) == end
    requires text[i + 1..end] == w
    ensures TypeWordEnd(text, i, words) == if Lower(w) in words then end else i
  {
  }

  lemma TypeRestStep(text: string, i: nat, k: nat, next: nat, words: set<string>)
    requires i <= |text| && BoundsEnd(text, ModifierEnd(text, i)) == k && TypeWordEnd(text, k, words) == next
    ensures TypeRestEnd(text, i, words) == if next == k then k else TypeRestEnd(text, next, words)
  {
  }

  lemma TypeRestMore(text: string, i: nat, r: TypeRest, next: nat, words: set<string>)
    requires r.More? && TypeRestOk(r, words) && i <= |text| && SuffixAt(text, i, r)
    requires WordAfter(text, i + SuffixLength(r), r.word)
    requires r.modifier.NoModifier? ==> !CharAt(text, i, '(')
    requires next == i + SuffixLength(r) + 1 + |r.word| && EndsName(text, next)
    ensures TypeRestEnd(text, i, words) == TypeRestEnd(text, next, words)
  {
    var k := i + SuffixLength(r);
    SuffixIs(text, i, r);
    WordRun(text, k, r.word);
    TypeWordIs(text, k, r.word, next, words);
    TypeRestStep(text, i, k, next, words);
  }

  lemma TypeRestLast(text: string, i: nat, r: TypeRest, end: nat, words: set<string>)
    requires r.Last? && TypeRestOk(r, words) && i <= |text| && SuffixAt(text, i, r) && end == i + SuffixLength(r)
    requires r.modifier.NoModifier? ==> !CharAt(text, i, '(')
    requires EndsWord(text, end)
    ensures TypeRestEnd(text, i, words) == TypeTail(text, end, words)
  {
    SuffixIs(text, i, r);
    TypeRestStep(text, i, end, TypeWordEnd(text, end, words), words);
  }

  lemma {:induction false} TypeRestIs(text: string, i: nat, r: TypeRest, end: nat, words: set<string>)
    requires TypeRestOk(r, words) && RestAt(text, i, r) && end == i + RestLength(r) && EndsWord(text, end)
    ensures i <= |text| && TypeRestEnd(text, i, words) == TypeTail(text, end, words)
    decreases r
  {
    RestHead(text, i, r, end);
    if r.More? {
      var next := i + SuffixLength(r) + 1 + |r.word|;
      RestHead(text, next, r.rest, end);
      TypeRestMore(text, i, r, next, words);
      TypeRestIs(text, next, r.rest, end, words);
    } else {
      TypeRestLast(text, i, r, end, words);
    }
  }

  /** A printed type name is skipped as a whole, and goes on only over bounds and words that follow it. */
  lemma TypeIs(text: string, i: nat, n: Dotted, rest: TypeRest, end: nat, words: set<string>)
    requires DottedOk(n) && TypeRestOk(rest, words) && Spans(text, i, PrintDotted(n))
    requires RestAt(text, i + |PrintDotted(n)|, rest)
    requires end == i + |PrintDotted(n)| + RestLength(rest) && EndsWord(text, end)
    ensures TypeEnd(text, i, words) == TypeTail(text, end, words)
  {
    var j := i + |PrintDotted(n)|;
    RestHead(text, j, rest, end);
    var r := NamesAre(text, i, n, false);
    TypeRestIs(text, j, rest, end, words);
  }

  // ---- literals ----

  /** The marks a literal doubles: a quote, and in an escape literal a backslash too. */
  function Marks(escaped: bool): string {
    if escaped then "'\\" else "'"
  }

  lemma SplitString(text: string, j: nat, t: string, escaped: bool)
    requires t != "" && Spans(text, j, Doubled(t, Marks(escaped)) + "'")
    ensures var n := if t[0] in Marks(escaped) then 2 else 1;
            && |Doubled(t, Marks(escaped))| == n + |Doubled(t[1..], Marks(escaped))|
            && Spans(text, j + n, Doubled(t[1..], Marks(escaped)) + "'")
            && StringEnd(text, j, escaped) == StringEnd(text, j + n, escaped)
  {
    var marks := Marks(escaped);
    var head := if t[0] in marks then [t[0], t[0]] else [t[0]];
    assert Doubled(t, marks) + "'" == head + (Doubled(t[1..], marks) + "'");
    Split(text, j, head, Doubled(t[1..], marks) + "'");
    Letter(text, j, head, 0);
    Letter(text, j, head, |head| - 1);
  }

  lemma {:induction false} StringIs(text: string, j: nat, t: string, escaped: bool)
    requires Spans(text, j, Doubled(t, Marks(escaped)) + "'")
    requires !CharAt(text, j + |Doubled(t, Marks(escaped))| + 1, '\'')
    ensures StringEnd(text, j, escaped) == j + |Doubled(t, Marks(escaped))| + 1
    decreases |t|
  {
    if t == "" {
      assert Doubled(t, Marks(escaped)) + "'" == "'";
      Letter(text, j, "'", 0);
    } else {
      SplitString(text, j, t, escaped);
      StringIs(text, if t[0] in Marks(escaped) then j + 2 else j + 1, t[1..], escaped);
    }
  }
}
