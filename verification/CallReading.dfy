/**
  What the scanner finds in a printed expression. A cast opens a type name, and the scanner goes on
  with it over whatever looks like more of it.
*/
module CallReading {
  import opened CallPrinter
  import opened CallScanner
  import opened Texts

  // ---- what the scanner reads as part of a type name ----

  predicate SmallLetter(c: char) {
    'a' <= c <= 'z'
  }

  /** The words that a type name may go on with are longer than a letter, and all letters. */
  predicate TypeWords(words: set<string>) {
    forall w :: w in words ==> |w| > 1 && Every(w, SmallLetter)
  }

  function LeadName(d: Dotted): string {
    if d.name.Plain? then d.name.text else ""
  }

  /** The word that an expression begins with, or none. */
  function LeadWord(e: Expr): string {
    match e
    case Leaf(a) => if a.Column? then LeadName(a.name) else ""
    case Call(n, _) => LeadName(n)
    case Special(w, _, _) => w
    case Group(_) => ""
    case Cast(e', _, _) => LeadWord(e')
    case Subscript(e', _) => LeadWord(e')
  }

  /** What goes on a type name between brackets of either kind. */
  function Between(brackets: bool): char -> bool {
    if brackets then Digit else ModifierByte
  }

  /** A type name goes on over the whole expression, which begins with a word of it. */
  predicate GoesOver(e: Expr) {
    match e
    case Leaf(a) => a.Column? && a.name.Single?
    case Call(n, args) => n.Single? && Every(PrintArgs(args), ModifierByte)
    case Special(_, brackets, args) => Every(PrintArgs(args), Between(brackets))
    case Group(_) => false
    case Cast(_, _, _) => true
    case Subscript(e', index) => GoesOver(e') && Every(PrintItems(index), Digit)
  }

  /** The item begins with a word that goes on the type name before it. */
  predicate Joins(item: Item, typed: bool, words: set<string>) {
    typed && item.Operand? && Lower(LeadWord(item.e)) in words
  }

  /** A type name is still open after the item; `typed` says that one was open before it. */
  predicate Goes(item: Item, typed: bool, words: set<string>) {
    match item
    case Operand(e) => if Joins(item, typed, words) then GoesOver(e) else e.Cast?
    case Keyword(w) => typed && Lower(w) in words
    case Operator(_) => false
  }

  /** The calls that are found when the first word of e is read as part of a type name, or is not. */
  function FoundExpr(e: Expr, joined: bool, words: set<string>): seq<FuncRef> {
    match e
    case Leaf(_) => []
    case Call(n, args) => FoundName(n, joined) + FoundArgs(args, words)
    case Special(_, _, args) => FoundArgs(args, words)
    case Group(items) => FoundItems(items, false, words)
    case Cast(e', _, _) => FoundExpr(e', joined, words)
    case Subscript(e', index) => FoundExpr(e', joined, words) + FoundItems(index, false, words)
  }

  function FoundName(n: Dotted, joined: bool): seq<FuncRef> {
    if !joined then [RefOf(PartsOf(n))] else if n.Single? then [] else [RefOf(PartsOf(n.rest))]
  }

  function FoundItem(item: Item, typed: bool, words: set<string>): seq<FuncRef> {
    if item.Operand? then FoundExpr(item.e, Joins(item, typed, words), words) else []
  }

  function FoundItems(items: Items, typed: bool, words: set<string>): seq<FuncRef> {
    FoundItem(items.item, typed, words)
    + if items.Item? then FoundItems(items.rest, Goes(items.item, typed, words), words) else []
  }

  function FoundArgs(args: Args, words: set<string>): seq<FuncRef> {
    match args
    case NoArgs => []
    case LastArg(a) => FoundItems(a, false, words)
    case Arg(a, rest) => FoundItems(a, false, words) + FoundArgs(rest, words)
  }

  // ---- tokens ----

  /** A text, the words of its type names, and the calls from every offset of it on. */
  datatype Scanned = Scanned(text: string, words: set<string>, after: nat -> seq<FuncRef>)

  ghost predicate Proper(sc: Scanned) {
    CallsFrom(sc.text, Mode(true, sc.words), sc.after) && TypeWords(sc.words)
  }

  /** A quote at i does not follow a letter: an expression begins here. */
  predicate StartsExpr(text: string, i: nat) {
    i <= |text| && (i > 0 ==> !IdentByte(text[i - 1]))
  }

  /** What may follow an expression: the end, a closing, a separator, a cast, or a space and no parenthesis. */
  predicate EndsExpr(text: string, j: nat) {
    j <= |text| && (j < |text| ==>
      || text[j] == ')' || text[j] == ']' || text[j] == ',' || text[j] == '[' || text[j] == ':'
      || (text[j] == ' ' && j + 1 < |text| && !Space(text[j + 1]) && text[j + 1] != '('))
  }

  predicate Mark(c: char) {
    OperatorByte(c) || c == '(' || c == ')' || c == '[' || c == ']' || c == ',' || c == ' '
  }

  lemma TokenStep(sc: Scanned, i: nat, j: nat, call: seq<FuncRef>)
    requires Proper(sc) && i < |sc.text|
    requires TokenEnd(sc.text, i, Mode(true, sc.words)) == j && CallAt(sc.text, i, Mode(true, sc.words)) == call
    ensures sc.after(i) == call + sc.after(j)
  {
    assert Calls(sc.text, i, Mode(true, sc.words)) == call + Calls(sc.text, j, Mode(true, sc.words));
  }

  lemma MarkStep(sc: Scanned, i: nat)
    requires Proper(sc) && i < |sc.text| && Mark(sc.text[i])
    requires !(sc.text[i] == '-' && CharAt(sc.text, i + 1, '-')) && !(sc.text[i] == '/' && CharAt(sc.text, i + 1, '*'))
    ensures sc.after(i) == sc.after(i + 1)
  {
    TokenStep(sc, i, i + 1, []);
  }

  lemma NoCall(text: string, j: nat)
    requires EndsExpr(text, j)
    ensures EndsName(text, j) && !CharAt(text, RunEnd(text, j, Space), '(')
  {
    RunIs(text, j, if CharAt(text, j, ' ') then j + 1 else j, Space);
  }

  lemma OpensCall(text: string, j: nat)
    requires CharAt(text, j, '(')
    ensures RunEnd(text, j, Space) == j
  {
  }

  lemma NameToken(sc: Scanned, i: nat, r: Reading)
    requires Proper(sc) && NameAt(sc.text, i) && Names(sc.text, i, true) == r
    ensures var calls := !r.keyword && CharAt(sc.text, RunEnd(sc.text, r.end, Space), '(');
            sc.after(i) == (if calls then [RefOf(r.parts)] else []) + sc.after(r.end)
  {
    TokenStep(sc, i, r.end, CallAt(sc.text, i, Mode(true, sc.words)));
  }

  lemma PlainName(sc: Scanned, i: nat, r: Reading)
    requires Proper(sc) && NameAt(sc.text, i) && Names(sc.text, i, true) == r && EndsExpr(sc.text, r.end)
    ensures sc.after(i) == sc.after(r.end)
  {
    NoCall(sc.text, r.end);
    NameToken(sc, i, r);
  }

  lemma CalledName(sc: Scanned, i: nat, r: Reading)
    requires Proper(sc) && NameAt(sc.text, i) && Names(sc.text, i, true) == r && !r.keyword
    requires CharAt(sc.text, r.end, '(')
    ensures sc.after(i) == [RefOf(r.parts)] + sc.after(r.end)
  {
    OpensCall(sc.text, r.end);
    NameToken(sc, i, r);
  }

  lemma ColumnStep(sc: Scanned, i: nat, d: Dotted)
    requires Proper(sc)
    requires DottedOk(d) && Spans(sc.text, i, PrintDotted(d)) && EndsExpr(sc.text, i + |PrintDotted(d)|)
    ensures sc.after(i) == sc.after(i + |PrintDotted(d)|)
  {
    hide Proper, Names, NameAt, Spans, DottedOk, PrintDotted;
    NoCall(sc.text, i + |PrintDotted(d)|);
    var r := NamesAre(sc.text, i, d, true);
    PlainName(sc, i, r);
  }

  lemma CallStep(sc: Scanned, i: nat, d: Dotted)
    requires Proper(sc)
    requires DottedOk(d) && Spans(sc.text, i, PrintDotted(d)) && CharAt(sc.text, i + |PrintDotted(d)|, '(')
    ensures sc.after(i) == [RefOf(PartsOf(d))] + sc.after(i + |PrintDotted(d)|)
  {
    hide Proper, Names, NameAt, Spans, DottedOk, PrintDotted, PartsOf, RefOf;
    var r := NamesAre(sc.text, i, d, true);
    CalledName(sc, i, r);
  }

  lemma WordStep(sc: Scanned, i: nat, w: string)
    requires Proper(sc)
    requires WordOk(w) && Spans(sc.text, i, w) && EndsName(sc.text, i + |w|)
    ensures sc.after(i) == sc.after(i + |w|)
  {
    WordIs(sc.text, i, w);
    NameToken(sc, i, Reading([w], true, i + |w|));
  }

  lemma LiteralStep(sc: Scanned, i: nat, t: string, escaped: bool)
    requires Proper(sc)
    requires CharAt(sc.text, i, '\'') && EscapedAt(sc.text, i) == escaped
    requires Spans(sc.text, i + 1, Doubled(t, Marks(escaped)) + "'")
    requires EndsExpr(sc.text, i + 2 + |Doubled(t, Marks(escaped))|)
    ensures sc.after(i) == sc.after(i + 2 + |Doubled(t, Marks(escaped))|)
  {
    StringIs(sc.text, i + 1, t, escaped);
    TokenStep(sc, i, i + 2 + |Doubled(t, Marks(escaped))|, []);
  }

  lemma NumberStep(sc: Scanned, i: nat, t: string)
    requires Proper(sc)
    requires t != "" && Digit(t[0]) && Every(t, NumberByte) && Spans(sc.text, i, t) && EndsExpr(sc.text, i + |t|)
    ensures sc.after(i) == sc.after(i + |t|)
  {
    Letter(sc.text, i, t, 0);
    RunOf(sc.text, i, t, NumberByte);
    TokenStep(sc, i, i + |t|, []);
  }

  lemma ParameterStep(sc: Scanned, i: nat, ds: string)
    requires Proper(sc)
    requires ds != "" && Every(ds, Digit) && CharAt(sc.text, i, '$') && Spans(sc.text, i + 1, ds)
    requires EndsExpr(sc.text, i + 1 + |ds|)
    ensures sc.after(i) == sc.after(i + 1 + |ds|)
  {
    Letter(sc.text, i + 1, ds, 0);
    RunOf(sc.text, i + 1, ds, Digit);
    TokenStep(sc, i, i + 1 + |ds|, []);
  }

  lemma SplitCast(text: string, i: nat, a: string, b: string)
    requires Spans(text, i, "::" + (a + b))
    ensures CharAt(text, i, ':') && CharAt(text, i + 1, ':') && Spans(text, i + 2, a) && Spans(text, i + 2 + |a|, b)
  {
    Split(text, i, "::", a + b);
    Split(text, i + 2, a, b);
    Letter(text, i, "::", 0);
    Letter(text, i, "::", 1);
  }

  lemma CastToken(sc: Scanned, i: nat, end: nat)
    requires Proper(sc) && CharAt(sc.text, i, ':') && CharAt(sc.text, i + 1, ':')
    requires TypeEnd(sc.text, i + 2, sc.words) == end
    ensures sc.after(i) == sc.after(end)
  {
    TokenStep(sc, i, end, []);
  }

  lemma {:induction false} OperatorSteps(sc: Scanned, i: nat, op: string)
    requires Proper(sc)
    requires OperatorOk(op) && Spans(sc.text, i, op) && !CharAt(sc.text, i + |op|, '-')
    requires !CharAt(sc.text, i + |op|, '*')
    ensures sc.after(i) == sc.after(i + |op|)
    decreases |op|
  {
    Letter(sc.text, i, op, 0);
    if |op| > 1 {
      Letter(sc.text, i, op, 1);
      MarkStep(sc, i);
      OperatorSteps(sc, i + 1, op[1..]);
    } else {
      MarkStep(sc, i);
    }
  }

  // ---- where a type name is open ----

  /** The calls that are found when a type name has come to j, and may go on with bounds and words. */
  function Typed(sc: Scanned, j: nat): seq<FuncRef>
    requires j <= |sc.text|
  {
    sc.after(TypeTail(sc.text, j, sc.words))
  }

  /** The calls that are found when a word of a type name ends at k. */
  function Resumed(sc: Scanned, k: nat): seq<FuncRef>
    requires k <= |sc.text|
  {
    sc.after(TypeRestEnd(sc.text, k, sc.words))
  }

  /** The calls from j on, where a type name is open or not. */
  function Leave(sc: Scanned, j: nat, goes: bool): seq<FuncRef>
    requires j <= |sc.text|
  {
    if goes then Typed(sc, j) else sc.after(j)
  }

  /** The calls from i on, where a type name is open before the space in front of i or not. */
  function Enter(sc: Scanned, i: nat, typed: bool): seq<FuncRef>
    requires i <= |sc.text| && (typed ==> i > 0)
  {
    if typed then Typed(sc, i - 1) else sc.after(i)
  }

  lemma TailPlain(sc: Scanned, j: nat)
    requires j <= |sc.text| && !CharAt(sc.text, j, '[') && !CharAt(sc.text, j, ' ')
    ensures Typed(sc, j) == sc.after(j)
  {}

  lemma TailBound(sc: Scanned, j: nat, s: string)
    requires CharAt(sc.text, j, '[') && Spans(sc.text, j + 1, s) && CharAt(sc.text, j + 1 + |s|, ']') && Every(s, Digit)
    ensures Typed(sc, j) == Typed(sc, j + 2 + |s|)
  {
    AllOf(sc.text, j + 1, s, Digit);
    RunIs(sc.text, j, j + 1 + |s|, NotBracket);
    assert BoundsEnd(sc.text, j) == BoundsEnd(sc.text, j + 2 + |s|);
  }

  lemma TailOpens(sc: Scanned, j: nat, s: string)
    requires CharAt(sc.text, j, '[') && Spans(sc.text, j + 1, s) && !Every(s, Digit) && Opens(s, Digit)
    ensures Typed(sc, j) == sc.after(j)
  {
    var p := OpensAt(s, Digit);
    Letter(sc.text, j + 1, s, p);
    forall k | j <= k <= j + 1 + p ensures sc.text[k] != ']' {
      if k > j { Letter(sc.text, j + 1, s, k - j - 1); }
    }
    RunBeyond(sc.text, j, j + 1 + p, NotBracket);
    assert BoundsEnd(sc.text, j) == j;
  }

  lemma TailWord(sc: Scanned, j: nat, k: nat)
    requires CharAt(sc.text, j, ' ') && j < k && TypeWordEnd(sc.text, j, sc.words) == k
    ensures Typed(sc, j) == Resumed(sc, k)
  {}

  lemma TailStop(sc: Scanned, j: nat)
    requires Proper(sc) && CharAt(sc.text, j, ' ') && TypeWordEnd(sc.text, j, sc.words) == j
    ensures Typed(sc, j) == sc.after(j + 1)
  {
    MarkStep(sc, j);
  }

  lemma ResumedPlain(sc: Scanned, k: nat)
    requires k <= |sc.text| && !CharAt(sc.text, k, '(')
    ensures Resumed(sc, k) == Typed(sc, k)
  {}

  lemma ResumedModifier(sc: Scanned, k: nat, s: string)
    requires CharAt(sc.text, k, '(') && Spans(sc.text, k + 1, s) && CharAt(sc.text, k + 1 + |s|, ')')
    requires Every(s, ModifierByte)
    ensures Resumed(sc, k) == Typed(sc, k + 2 + |s|)
  {
    AllOf(sc.text, k + 1, s, ModifierByte);
    RunIs(sc.text, k, k + 1 + |s|, NotParenthesis);
    assert ModifierEnd(sc.text, k) == k + 2 + |s|;
  }

  lemma ResumedOpens(sc: Scanned, k: nat, s: string)
    requires CharAt(sc.text, k, '(') && Spans(sc.text, k + 1, s) && !Every(s, ModifierByte) && Opens(s, ModifierByte)
    ensures Resumed(sc, k) == sc.after(k)
  {
    var p := OpensAt(s, ModifierByte);
    Letter(sc.text, k + 1, s, p);
    forall m | k <= m <= k + 1 + p ensures sc.text[m] != ')' {
      if m > k { Letter(sc.text, k + 1, s, m - k - 1); }
    }
    RunBeyond(sc.text, k, k + 1 + p, NotParenthesis);
    assert ModifierEnd(sc.text, k) == k;
  }

  lemma ResumedDot(sc: Scanned, k: nat)
    requires Proper(sc) && CharAt(sc.text, k, '.')
    ensures Resumed(sc, k) == sc.after(k + 1)
  {
    TokenStep(sc, k, k + 1, []);
  }

  /** A run of members goes beyond them. */
  lemma {:induction false} RunBeyond(text: string, i: nat, j: nat, member: char -> bool)
    requires i <= j < |text| && forall k :: i <= k <= j ==> member(text[k])
    ensures RunEnd(text, i, member) > j
    decreases j - i
  {
    if i < j { RunBeyond(text, i + 1, j, member); }
  }

  lemma {:induction false} RunWithin(text: string, i: nat, j: nat, member: char -> bool)
    requires i <= j < |text| && !member(text[j])
    ensures RunEnd(text, i, member) <= j
    decreases j - i
  {
    if i < j { RunWithin(text, i + 1, j, member); }
  }

  // ---- what stands between parentheses ----

  /** The first character that is no member, if any, is not a closing one. */
  predicate Opens(s: string, member: char -> bool) {
    s != "" ==> if member(s[0]) then Opens(s[1..], member) else s[0] != ')' && s[0] != ']'
  }

  ghost predicate Numeric(member: char -> bool) {
    forall c :: member(c) ==> ModifierByte(c)
  }

  lemma {:induction false} OpensAt(s: string, member: char -> bool) returns (p: nat)
    requires Opens(s, member) && !Every(s, member) && !member(')') && !member(']')
    ensures p < |s| && !member(s[p]) && forall q :: 0 <= q <= p ==> s[q] != ')' && s[q] != ']'
  {
    if !member(s[0]) {
      p := 0;
    } else {
      assert !Every(s[1..], member) by {
        var k :| 0 <= k < |s| && !member(s[k]);
        assert s[1..][k - 1] == s[k];
      }
      var q := OpensAt(s[1..], member);
      p := q + 1;
      forall r | 0 <= r <= p ensures s[r] != ')' && s[r] != ']' {
        if r > 0 { assert s[1..][r - 1] == s[r]; }
      }
    }
  }

  lemma {:induction false} OpensConcat(a: string, b: string, member: char -> bool)
    requires Opens(a, member) && Opens(b, member)
    ensures Opens(a + b, member)
  {
    if a == "" {
      assert a + b == b;
    } else if member(a[0]) {
      OpensConcat(a[1..], b, member);
      assert (a + b)[1..] == a[1..] + b;
    }
  }

  lemma {:induction false} OpensPlain(s: string, member: char -> bool)
    requires forall k :: 0 <= k < |s| ==> s[k] != ')' && s[k] != ']'
    ensures Opens(s, member)
  {
    if s != "" { OpensPlain(s[1..], member); }
  }

  lemma OpensHead(c: char, s: string, member: char -> bool)
    requires !member(c) && c != ')' && c != ']'
    ensures Opens([c] + s, member)
  {}

  lemma OpensWord(s: string, member: char -> bool)
    requires Numeric(member) && s != "" && (IdentStart(s[0]) || s[0] in "\"'$(")
    ensures Opens(s, member)
  {
    assert s == [s[0]] + s[1..];
    OpensHead(s[0], s[1..], member);
  }

  lemma OpensAtom(a: Atom, member: char -> bool)
    requires AtomOk(a) && Numeric(member)
    ensures Opens(PrintAtom(a), member)
  {
    if a.Number? {
      OpensPlain(a.text, member);
    } else {
      if a.Column? { HeadOfDotted(a.name); }
      OpensWord(PrintAtom(a), member);
    }
  }

  lemma HeadOfDotted(d: Dotted)
    requires DottedOk(d)
    ensures PrintDotted(d) != "" && (IdentStart(PrintDotted(d)[0]) || PrintDotted(d)[0] == '"')
  {
    assert PrintName(d.name) != "" && (IdentStart(PrintName(d.name)[0]) || PrintName(d.name)[0] == '"');
  }

  /** A printed expression closes nothing before it opens it. */
  lemma {:induction false} OpensExpr(e: Expr, words: set<string>, member: char -> bool)
    requires ExprOk(e, words) && Numeric(member)
    ensures Opens(Print(e), member)
    decreases e
  {
    match e
    case Leaf(a) => OpensAtom(a, member);
    case Call(n, args) =>
      HeadOfDotted(n);
      OpensWord(Print(e), member);
    case Special(w, _, _) => OpensWord(Print(e), member);
    case Group(_) => OpensWord(Print(e), member);
    case Cast(e', n, rest) =>
      OpensExpr(e', words, member);
      OpensHead(':', ":" + (PrintDotted(n) + PrintTypeRest(rest)), member);
      assert "::" + (PrintDotted(n) + PrintTypeRest(rest)) == [':'] + (":" + (PrintDotted(n) + PrintTypeRest(rest)));
      OpensConcat(Print(e'), "::" + (PrintDotted(n) + PrintTypeRest(rest)), member);
    case Subscript(e', index) =>
      OpensExpr(e', words, member);
      OpensHead('[', PrintItems(index) + "]", member);
      OpensConcat(Print(e'), "[" + (PrintItems(index) + "]"), member);
  }

  lemma OpensItem(item: Item, words: set<string>, member: char -> bool)
    requires ItemOk(item, words) && Numeric(member)
    ensures Opens(PrintItem(item), member)
  {
    match item
    case Operand(e) => OpensExpr(e, words, member);
    case Keyword(w) => OpensPlain(w, member);
    case Operator(op) => OpensPlain(op, member);
  }

  lemma {:induction false} OpensItems(items: Items, words: set<string>, member: char -> bool)
    requires ItemsOk(items, words) && Numeric(member)
    ensures Opens(PrintItems(items), member)
  {
    OpensItem(items.item, words, member);
    if items.Item? {
      OpensItems(items.rest, words, member);
      OpensPlain(" ", member);
      OpensConcat(" ", PrintItems(items.rest), member);
      OpensConcat(PrintItem(items.item), " " + PrintItems(items.rest), member);
    }
  }

  lemma {:induction false} OpensArgs(args: Args, words: set<string>, member: char -> bool)
    requires ArgsOk(args, words) && Numeric(member)
    ensures Opens(PrintArgs(args), member)
  {
    match args
    case NoArgs =>
    case LastArg(a) => OpensItems(a, words, member);
    case Arg(a, rest) =>
      OpensItems(a, words, member);
      OpensArgs(rest, words, member);
      OpensPlain(", ", member);
      OpensConcat(", ", PrintArgs(rest), member);
      OpensConcat(PrintItems(a), ", " + PrintArgs(rest), member);
  }

  /** Digits, commas and blanks hold no call. */
  lemma {:induction false} QuietScan(sc: Scanned, i: nat, s: string)
    requires Proper(sc) && Spans(sc.text, i, s) && Every(s, ModifierByte)
    requires i + |s| < |sc.text| && !NumberByte(sc.text[i + |s|])
    ensures sc.after(i) == sc.after(i + |s|)
    decreases |s|
  {
    if s != "" {
      Letter(sc.text, i, s, 0);
      var next := i + 1;
      if Digit(s[0]) {
        next := RunEnd(sc.text, i, NumberByte);
        RunWithin(sc.text, i, i + |s|, NumberByte);
        TokenStep(sc, i, next, []);
      } else {
        MarkStep(sc, i);
      }
      var rest := s[next - i..];
      assert s == s[..next - i] + rest;
      Split(sc.text, i, s[..next - i], rest);
      QuietScan(sc, next, rest);
    }
  }

  // ---- expressions ----

  lemma Wrapped(text: string, i: nat, open: char, body: string, close: char)
    requires Spans(text, i, [open] + (body + [close]))
    ensures CharAt(text, i, open) && Spans(text, i + 1, body) && CharAt(text, i + 1 + |body|, close)
  {
    Split(text, i, [open], body + [close]);
    Split(text, i + 1, body, [close]);
    Letter(text, i, [open], 0);
    Letter(text, i + 1 + |body|, [close], 0);
  }

  /** What may follow a list of items or arguments. */
  predicate EndsItems(text: string, j: nat) {
    j <= |text| && (j < |text| ==> text[j] == ')' || text[j] == ']' || text[j] == ',')
  }

  predicate EndsOperand(text: string, j: nat, e: Expr) {
    EndsExpr(text, j) && (e.Cast? ==> !CharAt(text, j, '['))
  }

  lemma CastEnd(sc: Scanned, j: nat, n: Dotted, rest: TypeRest, end: nat)
    requires Proper(sc) && DottedOk(n) && TypeRestOk(rest, sc.words) && CharAt(sc.text, j, ':')
    requires CharAt(sc.text, j + 1, ':')
    requires Spans(sc.text, j + 2, PrintDotted(n)) && RestAt(sc.text, j + 2 + |PrintDotted(n)|, rest)
    requires end == j + 2 + |PrintDotted(n)| + RestLength(rest) && EndsWord(sc.text, end)
    ensures sc.after(j) == Typed(sc, end)
  {
    hide Proper, Spans, RestAt, DottedOk, TypeRestOk, PrintDotted, RestLength, TypeTail, TypeEnd, EndsWord;
    TypeIs(sc.text, j + 2, n, rest, end, sc.words);
    CastToken(sc, j, TypeTail(sc.text, end, sc.words));
  }

  lemma CastText(text: string, i: nat, p: string, n: string, rest: string)
    requires Spans(text, i, p + ("::" + (n + rest)))
    ensures Spans(text, i, p) && CharAt(text, i + |p|, ':') && CharAt(text, i + |p| + 1, ':')
    ensures Spans(text, i + |p| + 2, n) && Spans(text, i + |p| + 2 + |n|, rest)
  {
    Split(text, i, p, "::" + (n + rest));
    SplitCast(text, i + |p|, n, rest);
  }

  /** A cast after an operand that prints as p. */
  lemma CastTail(sc: Scanned, i: nat, p: string, n: Dotted, rest: TypeRest, end: nat)
    requires Proper(sc) && DottedOk(n) && TypeRestOk(rest, sc.words)
    requires Spans(sc.text, i, p + ("::" + (PrintDotted(n) + PrintTypeRest(rest))))
    requires end == i + |p| + 2 + |PrintDotted(n)| + |PrintTypeRest(rest)| && EndsWord(sc.text, end)
    ensures Spans(sc.text, i, p) && CharAt(sc.text, i + |p|, ':') && sc.after(i + |p|) == Typed(sc, end)
  {
    hide *;
    CastText(sc.text, i, p, PrintDotted(n), PrintTypeRest(rest));
    TypeRestAt(sc.text, i + |p| + 2 + |PrintDotted(n)|, rest, end);
    CastEnd(sc, i + |p|, n, rest, end);
  }

  lemma TypeRestAt(text: string, k: nat, rest: TypeRest, end: nat)
    requires Spans(text, k, PrintTypeRest(rest)) && end == k + |PrintTypeRest(rest)|
    ensures RestAt(text, k, rest) && end == k + RestLength(rest)
  {
    RestPrintLength(rest);
    PrintedRest(text, k, rest);
  }

  /** A subscript after an operand that prints as p. */
  lemma {:induction false} SubscriptTail(sc: Scanned, i: nat, p: string, index: Items)
    requires Proper(sc) && ItemsOk(index, sc.words)
    requires Spans(sc.text, i, p + ("[" + (PrintItems(index) + "]")))
    ensures Spans(sc.text, i, p) && CharAt(sc.text, i + |p|, '[') && Spans(sc.text, i + |p| + 1, PrintItems(index))
    ensures CharAt(sc.text, i + |p| + 1 + |PrintItems(index)|, ']')
    ensures sc.after(i + |p|) == FoundItems(index, false, sc.words) + sc.after(i + |p| + 2 + |PrintItems(index)|)
    decreases index, 1
  {
    var j := i + |p|;
    Split(sc.text, i, p, "[" + (PrintItems(index) + "]"));
    Wrapped(sc.text, j, '[', PrintItems(index), ']');
    MarkStep(sc, j);
    ItemsScan(sc, j + 1, index, false);
    MarkStep(sc, j + 1 + |PrintItems(index)|);
  }

  /** A subscript where a type name is open. */
  lemma {:induction false} SubscriptJoined(sc: Scanned, i: nat, p: string, index: Items)
    requires Proper(sc) && ItemsOk(index, sc.words)
    requires Spans(sc.text, i, p + ("[" + (PrintItems(index) + "]")))
    ensures i + |p| + 2 + |PrintItems(index)| <= |sc.text|
    ensures Typed(sc, i + |p|) == FoundItems(index, false, sc.words)
                                  + Leave(sc, i + |p| + 2 + |PrintItems(index)|, Every(PrintItems(index), Digit))
    decreases index, 2
  {
    hide Typed;
    var j, s := i + |p|, PrintItems(index);
    SubscriptTail(sc, i, p, index);
    if Every(s, Digit) {
      TailBound(sc, j, s);
      QuietBrackets(sc, j, s);
      assert FoundItems(index, false, sc.words) == [];
    } else {
      OpensItems(index, sc.words, Digit);
      TailOpens(sc, j, s);
    }
  }

  lemma QuietBrackets(sc: Scanned, i: nat, s: string)
    requires Proper(sc) && Spans(sc.text, i + 1, s) && Every(s, ModifierByte) && i + 1 + |s| < |sc.text|
    requires sc.text[i] == '(' || sc.text[i] == '['
    requires sc.text[i + 1 + |s|] == ')' || sc.text[i + 1 + |s|] == ']'
    ensures sc.after(i) == sc.after(i + 2 + |s|)
  {
    MarkStep(sc, i);
    QuietScan(sc, i + 1, s);
    MarkStep(sc, i + 1 + |s|);
  }

  /** The arguments between parentheses or brackets. */
  lemma {:induction false} BracketScan(sc: Scanned, i: nat, brackets: bool, args: Args)
    requires Proper(sc) && ArgsOk(args, sc.words)
    requires Spans(sc.text, i, [Open(brackets)] + (PrintArgs(args) + [Close(brackets)]))
    ensures sc.after(i) == FoundArgs(args, sc.words) + sc.after(i + 2 + |PrintArgs(args)|)
    decreases args, 1
  {
    Wrapped(sc.text, i, Open(brackets), PrintArgs(args), Close(brackets));
    MarkStep(sc, i);
    ArgsScan(sc, i + 1, args);
    MarkStep(sc, i + 1 + |PrintArgs(args)|);
  }

  /** The arguments after a word of a type name. */
  lemma {:induction false} BracketJoined(sc: Scanned, i: nat, brackets: bool, args: Args)
    requires Proper(sc) && ArgsOk(args, sc.words)
    requires Spans(sc.text, i, [Open(brackets)] + (PrintArgs(args) + [Close(brackets)]))
    ensures i + 2 + |PrintArgs(args)| <= |sc.text|
    ensures Resumed(sc, i) == FoundArgs(args, sc.words)
                              + Leave(sc, i + 2 + |PrintArgs(args)|, Every(PrintArgs(args), Between(brackets)))
    decreases args, 2
  {
    hide Typed, Resumed;
    var s := PrintArgs(args);
    Wrapped(sc.text, i, Open(brackets), s, Close(brackets));
    BracketScan(sc, i, brackets, args);
    OpensArgs(args, sc.words, Between(brackets));
    if Every(s, Between(brackets)) {
      QuietBrackets(sc, i, s);
      assert FoundArgs(args, sc.words) == [];
    }
    BracketEnd(sc, i, brackets, s);
  }

  lemma BracketEnd(sc: Scanned, i: nat, brackets: bool, s: string)
    requires CharAt(sc.text, i, Open(brackets)) && Spans(sc.text, i + 1, s)
    requires CharAt(sc.text, i + 1 + |s|, Close(brackets))
    requires Opens(s, Between(brackets))
    ensures Resumed(sc, i) == if Every(s, Between(brackets)) then Typed(sc, i + 2 + |s|) else sc.after(i)
  {
    hide Typed, Resumed;
    if brackets {
      ResumedPlain(sc, i);
      if Every(s, Digit) { TailBound(sc, i, s); } else { TailOpens(sc, i, s); }
    } else {
      if Every(s, ModifierByte) { ResumedModifier(sc, i, s); } else { ResumedOpens(sc, i, s); }
    }
  }

  lemma LiteralScan(sc: Scanned, i: nat, t: string)
    requires Proper(sc) && Spans(sc.text, i, "'" + (Doubled(t, "'") + "'"))
    requires StartsExpr(sc.text, i) && EndsExpr(sc.text, i + 2 + |Doubled(t, "'")|)
    ensures sc.after(i) == sc.after(i + 2 + |Doubled(t, "'")|)
  {
    Split(sc.text, i, "'", Doubled(t, "'") + "'");
    Letter(sc.text, i, "'", 0);
    LiteralStep(sc, i, t, false);
  }

  lemma EscapeLiteralScan(sc: Scanned, i: nat, t: string)
    requires Proper(sc) && Spans(sc.text, i, "E" + ("'" + (Doubled(t, "'\\") + "'")))
    requires StartsExpr(sc.text, i) && EndsExpr(sc.text, i + 3 + |Doubled(t, "'\\")|)
    ensures sc.after(i) == sc.after(i + 3 + |Doubled(t, "'\\")|)
  {
    Split(sc.text, i, "E", "'" + (Doubled(t, "'\\") + "'"));
    Split(sc.text, i + 1, "'", Doubled(t, "'\\") + "'");
    Letter(sc.text, i, "E", 0);
    Letter(sc.text, i + 1, "'", 0);
    assert Lower("E") == "e";
    WordStep(sc, i, "E");
    LiteralStep(sc, i + 1, t, true);
  }

  lemma ParameterScan(sc: Scanned, i: nat, ds: string)
    requires Proper(sc)
    requires ds != "" && Every(ds, Digit) && Spans(sc.text, i, "$" + ds) && EndsExpr(sc.text, i + 1 + |ds|)
    ensures sc.after(i) == sc.after(i + 1 + |ds|)
  {
    Split(sc.text, i, "$", ds);
    Letter(sc.text, i, "$", 0);
    ParameterStep(sc, i, ds);
  }

  lemma AtomScan(sc: Scanned, i: nat, a: Atom)
    requires Proper(sc) && AtomOk(a) && Spans(sc.text, i, PrintAtom(a))
    requires StartsExpr(sc.text, i) && EndsExpr(sc.text, i + |PrintAtom(a)|)
    ensures sc.after(i) == sc.after(i + |PrintAtom(a)|)
  {
    hide Proper, Doubled, Every, Spans, DottedOk, PrintDotted, StartsExpr, EndsExpr;
    match a
    case Column(n) => ColumnStep(sc, i, n);
    case Literal(t) => LiteralScan(sc, i, t);
    case EscapeLiteral(t) => EscapeLiteralScan(sc, i, t);
    case Number(t) => NumberStep(sc, i, t);
    case Parameter(ds) => ParameterScan(sc, i, ds);
  }

  /** A function name that prints as p, and the arguments after it. */
  lemma {:induction false} CallTail(sc: Scanned, i: nat, p: string, args: Args)
    requires Proper(sc) && ArgsOk(args, sc.words)
    requires Spans(sc.text, i, p + ("(" + (PrintArgs(args) + ")")))
    ensures Spans(sc.text, i, p) && CharAt(sc.text, i + |p|, '(')
    ensures sc.after(i + |p|) == FoundArgs(args, sc.words) + sc.after(i + |p| + 2 + |PrintArgs(args)|)
    decreases args, 2
  {
    Split(sc.text, i, p, "(" + (PrintArgs(args) + ")"));
    Letter(sc.text, i + |p|, "(" + (PrintArgs(args) + ")"), 0);
    BracketScan(sc, i + |p|, false, args);
  }

  lemma {:induction false} CallScan(sc: Scanned, i: nat, d: Dotted, args: Args)
    requires Proper(sc) && DottedOk(d) && ArgsOk(args, sc.words)
    requires Spans(sc.text, i, PrintDotted(d) + ("(" + (PrintArgs(args) + ")")))
    ensures sc.after(i) == [RefOf(PartsOf(d))] + FoundArgs(args, sc.words)
                           + sc.after(i + |PrintDotted(d)| + 2 + |PrintArgs(args)|)
    decreases args, 3
  {
    hide Proper, Spans, DottedOk, ArgsOk, PrintDotted, PrintArgs, PartsOf, RefOf, FoundArgs;
    CallTail(sc, i, PrintDotted(d), args);
    CallStep(sc, i, d);
  }

  lemma {:induction false} SpecialScan(sc: Scanned, i: nat, w: string, brackets: bool, args: Args)
    requires Proper(sc) && WordOk(w) && ArgsOk(args, sc.words)
    requires Spans(sc.text, i, w + ([Open(brackets)] + (PrintArgs(args) + [Close(brackets)])))
    ensures sc.after(i) == FoundArgs(args, sc.words) + sc.after(i + |w| + 2 + |PrintArgs(args)|)
    decreases args, 2
  {
    Split(sc.text, i, w, [Open(brackets)] + (PrintArgs(args) + [Close(brackets)]));
    Letter(sc.text, i + |w|, [Open(brackets)] + (PrintArgs(args) + [Close(brackets)]), 0);
    WordStep(sc, i, w);
    BracketScan(sc, i + |w|, brackets, args);
  }

  lemma {:induction false} GroupScan(sc: Scanned, i: nat, items: Items)
    requires Proper(sc) && ItemsOk(items, sc.words) && Spans(sc.text, i, "(" + (PrintItems(items) + ")"))
    ensures sc.after(i) == FoundItems(items, false, sc.words) + sc.after(i + 2 + |PrintItems(items)|)
    decreases items, 1
  {
    Wrapped(sc.text, i, '(', PrintItems(items), ')');
    MarkStep(sc, i);
    ItemsScan(sc, i + 1, items, false);
    MarkStep(sc, i + 1 + |PrintItems(items)|);
  }

  lemma ExprEndsWord(text: string, j: nat, e: Expr)
    requires e.Cast? && EndsOperand(text, j, e)
    ensures EndsWord(text, j)
  {}

  lemma ColonEnds(text: string, j: nat, e: Expr)
    requires CharAt(text, j, ':')
    ensures EndsOperand(text, j, e)
  {}

  lemma BracketEnds(text: string, j: nat, e: Expr)
    requires CharAt(text, j, '[') && !e.Cast?
    ensures EndsOperand(text, j, e)
  {}

  lemma {:induction false} CastScan(sc: Scanned, i: nat, e: Expr)
    requires e.Cast? && Proper(sc) && ExprOk(e, sc.words) && Spans(sc.text, i, Print(e))
    requires StartsExpr(sc.text, i) && EndsOperand(sc.text, i + |Print(e)|, e)
    ensures sc.after(i) == FoundExpr(e, false, sc.words) + Typed(sc, i + |Print(e)|)
    decreases e, 0
  {
    hide Proper, Typed, Spans, StartsExpr, EndsOperand, EndsWord, PrintDotted, PrintTypeRest, DottedOk, TypeRestOk;
    var j, t := i + |Print(e.operand)|, PrintDotted(e.name) + PrintTypeRest(e.rest);
    assert Print(e) == Print(e.operand) + ("::" + t);
    ExprEndsWord(sc.text, i + |Print(e)|, e);
    CastTail(sc, i, Print(e.operand), e.name, e.rest, i + |Print(e)|);
    ColonEnds(sc.text, j, e.operand);
    ExprScan(sc, i, e.operand);
    LeaveColon(sc, j, e.operand.Cast?);
  }

  lemma LeaveColon(sc: Scanned, j: nat, goes: bool)
    requires CharAt(sc.text, j, ':')
    ensures Leave(sc, j, goes) == sc.after(j)
  {
    TailPlain(sc, j);
  }

  lemma {:induction false} SubscriptScan(sc: Scanned, i: nat, e: Expr)
    requires e.Subscript? && Proper(sc) && ExprOk(e, sc.words) && Spans(sc.text, i, Print(e))
    requires StartsExpr(sc.text, i)
    ensures sc.after(i) == FoundExpr(e, false, sc.words) + sc.after(i + |Print(e)|)
    decreases e, 0
  {
    hide Proper, Spans, StartsExpr, EndsOperand, ItemsOk, PrintItems;
    SubscriptTail(sc, i, Print(e.operand), e.index);
    BracketEnds(sc.text, i + |Print(e.operand)|, e.operand);
    ExprScan(sc, i, e.operand);
  }

  lemma {:induction false} BracketedScan(sc: Scanned, i: nat, e: Expr)
    requires (e.Call? || e.Special? || e.Group?) && Proper(sc) && ExprOk(e, sc.words) && Spans(sc.text, i, Print(e))
    ensures sc.after(i) == FoundExpr(e, false, sc.words) + sc.after(i + |Print(e)|)
    decreases e, 1
  {
    hide Proper, Spans, DottedOk, WordOk, ArgsOk, ItemsOk, PrintDotted, PrintArgs, PrintItems, FoundArgs, FoundItems;
    match e
    case Call(n, args) => CallScan(sc, i, n, args);
    case Special(w, brackets, args) => SpecialScan(sc, i, w, brackets, args);
    case Group(items) => GroupScan(sc, i, items);
  }

  /** An expression where no type name is open before it, or none that its first word goes on. */
  lemma {:induction false} ExprScan(sc: Scanned, i: nat, e: Expr)
    requires Proper(sc) && ExprOk(e, sc.words) && Spans(sc.text, i, Print(e))
    requires StartsExpr(sc.text, i) && EndsOperand(sc.text, i + |Print(e)|, e)
    ensures sc.after(i) == FoundExpr(e, false, sc.words) + Leave(sc, i + |Print(e)|, e.Cast?)
    decreases e, 2
  {
    if e.Leaf? {
      AtomScan(sc, i, e.atom);
    } else if e.Cast? {
      CastScan(sc, i, e);
    } else if e.Subscript? {
      SubscriptScan(sc, i, e);
    } else {
      BracketedScan(sc, i, e);
    }
  }

  // ---- expressions that go on a type name ----

  lemma ColumnJoined(sc: Scanned, i: nat, d: Dotted)
    requires Proper(sc) && DottedOk(d) && d.name.Plain? && Spans(sc.text, i, PrintDotted(d))
    requires EndsExpr(sc.text, i + |PrintDotted(d)|)
    ensures i + |d.name.text| <= |sc.text|
    ensures Resumed(sc, i + |d.name.text|) == Leave(sc, i + |PrintDotted(d)|, d.Single?)
  {
    hide Typed, Resumed;
    var k := i + |d.name.text|;
    if d.Single? {
      ResumedPlain(sc, k);
    } else {
      SplitDotted(sc.text, i, d);
      ResumedDot(sc, k);
      ColumnStep(sc, k + 1, d.rest);
    }
  }

  lemma {:induction false} CallJoined(sc: Scanned, i: nat, d: Dotted, args: Args)
    requires Proper(sc) && DottedOk(d) && d.name.Plain? && ArgsOk(args, sc.words)
    requires Spans(sc.text, i, PrintDotted(d) + ("(" + (PrintArgs(args) + ")")))
    ensures i + |PrintDotted(d)| + 2 + |PrintArgs(args)| <= |sc.text| && i + |d.name.text| <= |sc.text|
    ensures Resumed(sc, i + |d.name.text|) ==
      FoundName(d, true) + FoundArgs(args, sc.words)
      + Leave(sc, i + |PrintDotted(d)| + 2 + |PrintArgs(args)|, d.Single? && Every(PrintArgs(args), ModifierByte))
    decreases args, 4
  {
    hide Typed, Resumed;
    var k, tail := i + |d.name.text|, "(" + (PrintArgs(args) + ")");
    Split(sc.text, i, PrintDotted(d), tail);
    if d.Single? {
      BracketJoined(sc, k, false, args);
    } else {
      SplitDotted(sc.text, i, d);
      ResumedDot(sc, k);
      Adjoin(sc.text, k + 1, PrintDotted(d.rest), tail);
      CallScan(sc, k + 1, d.rest, args);
    }
  }

  lemma Adjoin(text: string, i: nat, a: string, b: string)
    requires Spans(text, i, a) && Spans(text, i + |a|, b)
    ensures Spans(text, i, a + b)
  {
    forall k | 0 <= k < |a + b| ensures text[i + k] == (a + b)[k] {
      if k < |a| { Letter(text, i, a, k); } else { Letter(text, i + |a|, b, k - |a|); }
    }
  }

  lemma {:induction false} SpecialJoined(sc: Scanned, i: nat, w: string, brackets: bool, args: Args)
    requires Proper(sc) && ArgsOk(args, sc.words)
    requires Spans(sc.text, i, w + ([Open(brackets)] + (PrintArgs(args) + [Close(brackets)])))
    ensures i + |w| + 2 + |PrintArgs(args)| <= |sc.text|
    ensures Resumed(sc, i + |w|) == FoundArgs(args, sc.words)
                                    + Leave(sc, i + |w| + 2 + |PrintArgs(args)|,
                                      Every(PrintArgs(args), Between(brackets)))
    decreases args, 3
  {
    Split(sc.text, i, w, [Open(brackets)] + (PrintArgs(args) + [Close(brackets)]));
    BracketJoined(sc, i + |w|, brackets, args);
  }

  lemma {:induction false} CastJoined(sc: Scanned, i: nat, e: Expr)
    requires e.Cast? && Proper(sc) && ExprOk(e, sc.words) && LeadWord(e) != "" && Spans(sc.text, i, Print(e))
    requires EndsOperand(sc.text, i + |Print(e)|, e)
    ensures i + |LeadWord(e)| <= |sc.text|
    ensures Resumed(sc, i + |LeadWord(e)|) == FoundExpr(e, true, sc.words) + Typed(sc, i + |Print(e)|)
    decreases e, 0
  {
    hide Proper, Typed, Resumed, Spans, EndsOperand, EndsWord, PrintDotted, PrintTypeRest, DottedOk, TypeRestOk;
    var j, t := i + |Print(e.operand)|, PrintDotted(e.name) + PrintTypeRest(e.rest);
    assert Print(e) == Print(e.operand) + ("::" + t);
    ExprEndsWord(sc.text, i + |Print(e)|, e);
    CastTail(sc, i, Print(e.operand), e.name, e.rest, i + |Print(e)|);
    ColonEnds(sc.text, j, e.operand);
    ExprJoined(sc, i, e.operand);
    LeaveColon(sc, j, GoesOver(e.operand));
  }

  lemma {:induction false} IndexJoined(sc: Scanned, i: nat, whole: Expr, e: Expr, index: Items)
    requires whole == Subscript(e, index)
    requires Proper(sc) && ExprOk(e, sc.words) && !e.Cast? && LeadWord(e) != "" && ItemsOk(index, sc.words)
    requires Spans(sc.text, i, Print(e) + ("[" + (PrintItems(index) + "]")))
    ensures i + |LeadWord(e)| <= |sc.text| && i + |Print(e)| + 2 + |PrintItems(index)| <= |sc.text|
    ensures Resumed(sc, i + |LeadWord(e)|) ==
      FoundExpr(e, true, sc.words) + FoundItems(index, false, sc.words)
      + Leave(sc, i + |Print(e)| + 2 + |PrintItems(index)|, GoesOver(e) && Every(PrintItems(index), Digit))
    decreases whole, 0
  {
    hide Proper, Typed, Resumed, Spans, EndsOperand, ExprOk, ItemsOk, LeadWord, Print, PrintItems,
         FoundExpr, FoundItems, GoesOver, Every;
    SubscriptTail(sc, i, Print(e), index);
    BracketEnds(sc.text, i + |Print(e)|, e);
    SubscriptJoined(sc, i, Print(e), index);
    ExprJoined(sc, i, e);
  }

  /** An expression whose first word is read as part of a type name. */
  lemma {:induction false} ExprJoined(sc: Scanned, i: nat, e: Expr)
    requires Proper(sc) && ExprOk(e, sc.words) && LeadWord(e) != "" && Spans(sc.text, i, Print(e))
    requires EndsOperand(sc.text, i + |Print(e)|, e)
    ensures i + |LeadWord(e)| <= |sc.text|
    ensures Resumed(sc, i + |LeadWord(e)|) == FoundExpr(e, true, sc.words) + Leave(sc, i + |Print(e)|, GoesOver(e))
    decreases e, 2
  {
    hide Proper, Typed, Resumed, Spans, EndsExpr, DottedOk, WordOk, ArgsOk, ItemsOk, PrintDotted, PrintArgs, PrintItems,
         FoundArgs, FoundItems, Every;
    match e
    case Leaf(a) => ColumnJoined(sc, i, a.name);
    case Call(n, args) => CallJoined(sc, i, n, args);
    case Special(w, brackets, args) => SpecialJoined(sc, i, w, brackets, args);
    case Group(_) =>
    case Cast(_, _, _) => CastJoined(sc, i, e);
    case Subscript(e', index) => IndexJoined(sc, i, e, e', index);
  }

  // ---- the word after a space ----

  /** What begins with no letter is no word of a type name. */
  lemma NoLetter(text: string, i: nat, words: set<string>)
    requires TypeWords(words) && 0 < i < |text| && CharAt(text, i - 1, ' ') && !SmallLetter(LowerChar(text[i]))
    ensures TypeWordEnd(text, i - 1, words) == i - 1
  {
    var end := RunEnd(text, i, IdentByte);
    if end > i {
      var w := Lower(text[i..end]);
      assert w[0] == LowerChar(text[i]);
    }
  }

  lemma LeadRun(text: string, i: nat, w: string, words: set<string>)
    requires i > 0 && CharAt(text, i - 1, ' ') && Spans(text, i, w) && w != "" && Every(w, IdentByte)
    requires i + |w| < |text| ==> !IdentByte(text[i + |w|])
    ensures TypeWordEnd(text, i - 1, words) == if Lower(w) in words then i + |w| else i - 1
  {
    RunOf(text, i, w, IdentByte);
    assert text[i..i + |w|] == w;
    TypeWordIs(text, i - 1, w, i + |w|, words);
  }

  lemma LeadOfDotted(text: string, i: nat, d: Dotted, words: set<string>)
    requires TypeWords(words) && DottedOk(d) && i > 0 && CharAt(text, i - 1, ' ') && Spans(text, i, PrintDotted(d))
    requires EndsPart(text, i + |PrintDotted(d)|)
    ensures TypeWordEnd(text, i - 1, words) == if Lower(LeadName(d)) in words then i + |LeadName(d)| else i - 1
  {
    if d.Qualified? { SplitDotted(text, i, d); }
    Letter(text, i, PrintName(d.name), 0);
    if d.name.Plain? {
      LeadRun(text, i, d.name.text, words);
    } else {
      NoLetter(text, i, words);
      assert "" !in words;
    }
  }

  lemma LeadOfAtom(text: string, i: nat, a: Atom, words: set<string>)
    requires TypeWords(words) && AtomOk(a) && i > 0 && CharAt(text, i - 1, ' ') && Spans(text, i, PrintAtom(a))
    requires EndsPart(text, i + |PrintAtom(a)|)
    ensures var w := LeadWord(Leaf(a));
            TypeWordEnd(text, i - 1, words) == if Lower(w) in words then i + |w| else i - 1
  {
    assert "" !in words;
    if a.Column? {
      LeadOfDotted(text, i, a.name, words);
    } else {
      Letter(text, i, PrintAtom(a), 0);
      if a.EscapeLiteral? {
        Letter(text, i, PrintAtom(a), 1);
        Split(text, i, "E", "'" + (Doubled(a.text, "'\\") + "'"));
        LeadRun(text, i, "E", words);
        assert |Lower("E")| == 1;
      } else {
        NoLetter(text, i, words);
      }
    }
  }

  /** A name or keyword that prints as p, and what follows it. */
  lemma LeadTail(text: string, i: nat, p: string, tail: string)
    requires Spans(text, i, p + tail) && tail != "" && tail[0] in "([:"
    ensures Spans(text, i, p) && EndsPart(text, i + |p|) && (tail[0] != '(' ==> EndsExpr(text, i + |p|))
  {
    Split(text, i, p, tail);
    Letter(text, i + |p|, tail, 0);
  }

  lemma LeadOfBracketed(text: string, i: nat, e: Expr, words: set<string>)
    requires e.Call? || e.Special? || e.Group?
    requires TypeWords(words) && ExprOk(e, words) && i > 0 && CharAt(text, i - 1, ' ') && Spans(text, i, Print(e))
    ensures TypeWordEnd(text, i - 1, words) == if Lower(LeadWord(e)) in words then i + |LeadWord(e)| else i - 1
  {
    match e
    case Call(n, args) =>
      LeadTail(text, i, PrintDotted(n), "(" + (PrintArgs(args) + ")"));
      LeadOfDotted(text, i, n, words);
    case Special(w, brackets, args) =>
      LeadTail(text, i, w, [Open(brackets)] + (PrintArgs(args) + [Close(brackets)]));
      LeadRun(text, i, w, words);
    case Group(items) =>
      Letter(text, i, "(" + (PrintItems(items) + ")"), 0);
      NoLetter(text, i, words);
      assert "" !in words;
  }

  /** The word that the type name scanner finds in front of an expression. */
  lemma {:induction false} LeadIs(text: string, i: nat, e: Expr, words: set<string>)
    requires TypeWords(words) && ExprOk(e, words) && i > 0 && CharAt(text, i - 1, ' ') && Spans(text, i, Print(e))
    requires EndsExpr(text, i + |Print(e)|)
    ensures TypeWordEnd(text, i - 1, words) == if Lower(LeadWord(e)) in words then i + |LeadWord(e)| else i - 1
    decreases e
  {
    hide TypeWords, TypeWordEnd, Spans, PrintItems, PrintTypeRest, PrintDotted, Lower;
    match e
    case Leaf(a) => LeadOfAtom(text, i, a, words);
    case Call(_, _) => LeadOfBracketed(text, i, e, words);
    case Special(_, _, _) => LeadOfBracketed(text, i, e, words);
    case Group(_) => LeadOfBracketed(text, i, e, words);
    case Cast(e', n, rest) =>
      LeadTail(text, i, Print(e'), "::" + (PrintDotted(n) + PrintTypeRest(rest)));
      LeadIs(text, i, e', words);
    case Subscript(e', index) =>
      LeadTail(text, i, Print(e'), "[" + (PrintItems(index) + "]"));
      LeadIs(text, i, e', words);
  }

  // ---- lists ----

  /** What follows an item inside a list: a space and then the next item. */
  lemma ItemEnds(sc: Scanned, j: nat, item: Item, next: Item)
    requires Proper(sc) && ItemOk(item, sc.words) && ItemOk(next, sc.words) && MayFollow(item, next)
    requires CharAt(sc.text, j, ' ') && Spans(sc.text, j + 1, PrintItem(next))
    ensures item.Operand? ==> EndsOperand(sc.text, j, item.e)
  {
    if item.Operand? {
      Letter(sc.text, j + 1, PrintItem(next), 0);
    }
  }

  /** Where an item stands: at the beginning of a list, or after a space. */
  predicate ItemPlace(text: string, i: nat, item: Item, typed: bool) {
    && StartsExpr(text, i) && (typed ==> i > 0 && CharAt(text, i - 1, ' ')) && Spans(text, i, PrintItem(item))
    && (EndsItems(text, i + |PrintItem(item)|) || CharAt(text, i + |PrintItem(item)|, ' '))
    && (item.Operand? ==> EndsOperand(text, i + |PrintItem(item)|, item.e))
  }

  lemma {:induction false} OperandScan(sc: Scanned, i: nat, e: Expr, typed: bool)
    requires Proper(sc) && ExprOk(e, sc.words) && ItemPlace(sc.text, i, Operand(e), typed)
    ensures Enter(sc, i, typed) == FoundItem(Operand(e), typed, sc.words)
                                   + Leave(sc, i + |Print(e)|, Goes(Operand(e), typed, sc.words))
    decreases e, 3
  {
    hide Typed, Resumed, EndsOperand, EndsItems, Proper, TypeWords, FoundExpr, GoesOver, ExprOk, Spans,
         Print, Lower, LeadWord;
    if !typed {
      ExprScan(sc, i, e);
    } else {
      OperandEnds(sc, i + |Print(e)|, e);
      LeadIs(sc.text, i, e, sc.words);
      if Joins(Operand(e), typed, sc.words) {
        JoinsWord(e, sc.words);
        TailWord(sc, i - 1, i + |LeadWord(e)|);
        ExprJoined(sc, i, e);
      } else {
        TailStop(sc, i - 1);
        ExprScan(sc, i, e);
      }
    }
  }

  lemma OperandEnds(sc: Scanned, j: nat, e: Expr)
    requires Proper(sc) && EndsOperand(sc.text, j, e)
    ensures EndsExpr(sc.text, j) && TypeWords(sc.words)
  {}

  lemma JoinsWord(e: Expr, words: set<string>)
    requires TypeWords(words) && Lower(LeadWord(e)) in words
    ensures LeadWord(e) != ""
  {
    assert |Lower(LeadWord(e))| > 1;
  }

  lemma KeywordScan(sc: Scanned, i: nat, w: string, typed: bool)
    requires Proper(sc) && WordOk(w) && ItemPlace(sc.text, i, Keyword(w), typed)
    ensures Enter(sc, i, typed) == Leave(sc, i + |w|, typed && Lower(w) in sc.words)
  {
    hide Typed, Resumed;
    if typed {
      LeadRun(sc.text, i, w, sc.words);
      if Lower(w) in sc.words {
        TailWord(sc, i - 1, i + |w|);
        ResumedPlain(sc, i + |w|);
      } else {
        TailStop(sc, i - 1);
        WordStep(sc, i, w);
      }
    } else {
      WordStep(sc, i, w);
    }
  }

  lemma OperatorScan(sc: Scanned, i: nat, op: string, typed: bool)
    requires Proper(sc) && OperatorOk(op) && ItemPlace(sc.text, i, Operator(op), typed)
    ensures Enter(sc, i, typed) == sc.after(i + |op|)
  {
    OperatorSteps(sc, i, op);
    if typed {
      Letter(sc.text, i, op, 0);
      NoLetter(sc.text, i, sc.words);
      TailStop(sc, i - 1);
    }
  }

  lemma {:induction false} ItemScan(sc: Scanned, i: nat, item: Item, typed: bool)
    requires Proper(sc) && ItemOk(item, sc.words) && ItemPlace(sc.text, i, item, typed)
    ensures Enter(sc, i, typed) == FoundItem(item, typed, sc.words)
                                   + Leave(sc, i + |PrintItem(item)|, Goes(item, typed, sc.words))
    decreases item, 0
  {
    hide Typed, Resumed, EndsOperand, Proper, ExprOk, WordOk, OperatorOk;
    match item
    case Operand(e) => OperandScan(sc, i, e, typed);
    case Keyword(w) => KeywordScan(sc, i, w, typed);
    case Operator(op) => OperatorScan(sc, i, op, typed);
  }

  lemma LeaveList(sc: Scanned, j: nat, goes: bool)
    requires EndsItems(sc.text, j)
    ensures Leave(sc, j, goes) == sc.after(j)
  {
    TailPlain(sc, j);
  }

  lemma LeaveSpace(sc: Scanned, j: nat, goes: bool)
    requires Proper(sc) && CharAt(sc.text, j, ' ')
    ensures Leave(sc, j, goes) == Enter(sc, j + 1, goes)
  {
    MarkStep(sc, j);
  }

  lemma {:induction false} LastScan(sc: Scanned, i: nat, item: Item, typed: bool)
    requires Proper(sc) && ItemOk(item, sc.words) && Spans(sc.text, i, PrintItem(item))
    requires StartsExpr(sc.text, i) && (typed ==> i > 0 && CharAt(sc.text, i - 1, ' '))
    requires EndsItems(sc.text, i + |PrintItem(item)|)
    ensures Enter(sc, i, typed) == FoundItem(item, typed, sc.words) + sc.after(i + |PrintItem(item)|)
    decreases item, 1
  {
    hide Typed, Goes, FoundItem;
    ItemScan(sc, i, item, typed);
    LeaveList(sc, i + |PrintItem(item)|, Goes(item, typed, sc.words));
  }

  lemma {:induction false} ItemsScan(sc: Scanned, i: nat, items: Items, typed: bool)
    requires Proper(sc) && ItemsOk(items, sc.words) && Spans(sc.text, i, PrintItems(items))
    requires StartsExpr(sc.text, i) && (typed ==> i > 0 && CharAt(sc.text, i - 1, ' '))
    requires EndsItems(sc.text, i + |PrintItems(items)|)
    ensures Enter(sc, i, typed) == FoundItems(items, typed, sc.words) + sc.after(i + |PrintItems(items)|)
    decreases items, 0
  {
    hide Typed, Goes, FoundItem, Proper;
    if items.LastItem? {
      LastScan(sc, i, items.item, typed);
    } else {
      var j, goes := i + |PrintItem(items.item)|, Goes(items.item, typed, sc.words);
      FirstItem(sc, i, items, typed);
      ItemScan(sc, i, items.item, typed);
      LeaveSpace(sc, j, goes);
      ItemsScan(sc, j + 1, items.rest, goes);
    }
  }

  /** The first of several items, and what follows it. */
  lemma FirstItem(sc: Scanned, i: nat, items: Items, typed: bool)
    requires Proper(sc) && items.Item? && ItemsOk(items, sc.words) && Spans(sc.text, i, PrintItems(items))
    requires StartsExpr(sc.text, i) && (typed ==> i > 0 && CharAt(sc.text, i - 1, ' '))
    requires EndsItems(sc.text, i + |PrintItems(items)|)
    ensures var j := i + |PrintItem(items.item)|;
            && ItemPlace(sc.text, i, items.item, typed) && CharAt(sc.text, j, ' ')
              && Spans(sc.text, j + 1, PrintItems(items.rest))
            && |PrintItems(items)| == |PrintItem(items.item)| + 1 + |PrintItems(items.rest)|
  {
    SplitItems(sc.text, i, items);
    ItemEnds(sc, i + |PrintItem(items.item)|, items.item, items.rest.item);
  }

  lemma SplitItems(text: string, i: nat, items: Items)
    requires items.Item? && Spans(text, i, PrintItems(items)) && EndsItems(text, i + |PrintItems(items)|)
    ensures var j := i + |PrintItem(items.item)|;
            && Spans(text, i, PrintItem(items.item)) && CharAt(text, j, ' ')
              && Spans(text, j + 1, PrintItems(items.rest))
            && Spans(text, j + 1, PrintItem(items.rest.item))
            && |PrintItems(items)| == |PrintItem(items.item)| + 1 + |PrintItems(items.rest)|
  {
    var j := i + |PrintItem(items.item)|;
    Split(text, i, PrintItem(items.item), " " + PrintItems(items.rest));
    Split(text, j, " ", PrintItems(items.rest));
    Letter(text, j, " ", 0);
    if items.rest.Item? {
      Split(text, j + 1, PrintItem(items.rest.item), " " + PrintItems(items.rest.rest));
    }
  }

  lemma {:induction false} ArgsScan(sc: Scanned, i: nat, args: Args)
    requires Proper(sc) && ArgsOk(args, sc.words) && Spans(sc.text, i, PrintArgs(args))
    requires StartsExpr(sc.text, i) && EndsItems(sc.text, i + |PrintArgs(args)|)
    ensures sc.after(i) == FoundArgs(args, sc.words) + sc.after(i + |PrintArgs(args)|)
    decreases args, 0
  {
    hide Proper, Spans, ItemsOk, PrintItems, FoundItems;
    match args
    case NoArgs =>
    case LastArg(a) => ItemsScan(sc, i, a, false);
    case Arg(a, rest) =>
      var j := i + |PrintItems(a)|;
      Split(sc.text, i, PrintItems(a), ", " + PrintArgs(rest));
      Split(sc.text, j, ", ", PrintArgs(rest));
      Letter(sc.text, j, ", ", 0);
      Letter(sc.text, j, ", ", 1);
      ItemsScan(sc, i, a, false);
      MarkStep(sc, j);
      MarkStep(sc, j + 1);
      ArgsScan(sc, j + 2, rest);
  }

  /** What the scanner finds in a printed expression, whatever follows its casts. */
  lemma ScanFinds(items: Items, words: set<string>)
    requires ItemsOk(items, words) && TypeWords(words)
    ensures Calls(PrintItems(items), 0, Mode(true, words)) == FoundItems(items, false, words)
  {
    var text := PrintItems(items);
    var sc := Scanned(text, words, (i: nat) => Calls(text, i, Mode(true, words)));
    ItemsScan(sc, 0, items, false);
    assert sc.after(|text|) == [];
  }
}
