/** The calls that the scanner does not find, and the proof that it finds exactly all others. */
module HiddenCalls {
  import opened CallPrinter
  import opened CallReading
  import opened CallScanner
  import opened Texts

  // ---- which calls are hidden ----

  /** A function name of one or two parts: without its first part it names another function, or none. */
  predicate Short(n: Dotted) {
    n.Single? || n.rest.Single?
  }

  /**
    A call is hidden: its name is short and begins with an unquoted word of type names, and it stands
    where a type name is open. A cast opens one, and keywords, columns, numeric calls and numeric
    subscripts that begin with such words go on it.
  */
  predicate HidesExpr(e: Expr, joined: bool, words: set<string>) {
    match e
    case Leaf(_) => false
    case Call(n, args) => (joined && Short(n)) || HidesArgs(args, words)
    case Special(_, _, args) => HidesArgs(args, words)
    case Group(items) => Hides(items, false, words)
    case Cast(e', _, _) => HidesExpr(e', joined, words)
    case Subscript(e', index) => HidesExpr(e', joined, words) || Hides(index, false, words)
  }

  predicate Hides(items: Items, typed: bool, words: set<string>) {
    || (items.item.Operand? && HidesExpr(items.item.e, Joins(items.item, typed, words), words))
    || (items.Item? && Hides(items.rest, Goes(items.item, typed, words), words))
  }

  predicate HidesArgs(args: Args, words: set<string>) {
    match args
    case NoArgs => false
    case LastArg(a) => Hides(a, false, words)
    case Arg(a, rest) => Hides(a, false, words) || HidesArgs(rest, words)
  }

  /** A call counts for its name and, where it has one, for its schema. */
  function Weight(refs: seq<FuncRef>): nat {
    if refs == [] then 0 else (if refs[0].schema == "" then 1 else 2) + Weight(refs[1..])
  }

  lemma {:induction false} WeightConcat(a: seq<FuncRef>, b: seq<FuncRef>)
    ensures Weight(a + b) == Weight(a) + Weight(b)
  {
    if a == [] {
      assert a + b == b;
    } else {
      WeightConcat(a[1..], b);
      assert (a + b)[1..] == a[1..] + b;
    }
  }

  /** What is found is all there is, or less of it. */
  ghost predicate Compares(found: seq<FuncRef>, calls: seq<FuncRef>, hides: bool) {
    if hides then Weight(found) < Weight(calls) else found == calls
  }

  lemma ComparesConcat(f: seq<FuncRef>, c: seq<FuncRef>, h: bool, f': seq<FuncRef>, c': seq<FuncRef>, h': bool)
    requires Compares(f, c, h) && Compares(f', c', h')
    ensures Compares(f + f', c + c', h || h')
  {
    WeightConcat(f, f');
    WeightConcat(c, c');
  }

  lemma NameCompares(n: Dotted, joined: bool)
    requires joined ==> n.name.text != ""
    ensures Compares(FoundName(n, joined), [RefOf(PartsOf(n))], joined && Short(n))
  {
    var parts := PartsOf(n);
    assert Weight([RefOf(parts)]) == if RefOf(parts).schema == "" then 1 else 2;
    if joined && n.Qualified? {
      var rest := PartsOf(n.rest);
      assert parts[|parts| - 1] == rest[|rest| - 1];
      assert Weight([RefOf(rest)]) == if RefOf(rest).schema == "" then 1 else 2;
      if n.rest.Qualified? {
        assert |rest| >= 2 && parts[|parts| - 2] == rest[|rest| - 2];
      }
    }
  }

  lemma {:induction false} ExprCompares(e: Expr, joined: bool, words: set<string>)
    requires joined ==> LeadWord(e) != ""
    requires TypeWords(words)
    ensures Compares(FoundExpr(e, joined, words), CallsOf(e), HidesExpr(e, joined, words))
    decreases e, 1
  {
    match e
    case Leaf(_) =>
    case Call(n, args) =>
      NameCompares(n, joined);
      ArgsCompare(args, words);
      ComparesConcat(FoundName(n, joined), [RefOf(PartsOf(n))], joined && Short(n),
                     FoundArgs(args, words), CallsOfArgs(args), HidesArgs(args, words));
    case Special(_, _, args) => ArgsCompare(args, words);
    case Group(items) => ItemsCompare(items, false, words);
    case Cast(e', _, _) => ExprCompares(e', joined, words);
    case Subscript(e', index) =>
      ExprCompares(e', joined, words);
      ItemsCompare(index, false, words);
      ComparesConcat(FoundExpr(e', joined, words), CallsOf(e'), HidesExpr(e', joined, words),
                     FoundItems(index, false, words), CallsOfItems(index), Hides(index, false, words));
  }

  lemma {:induction false} ItemsCompare(items: Items, typed: bool, words: set<string>)
    requires TypeWords(words)
    ensures Compares(FoundItems(items, typed, words), CallsOfItems(items), Hides(items, typed, words))
    decreases items, 0
  {
    var item := items.item;
    var calls := if item.Operand? then CallsOf(item.e) else [];
    var hides := item.Operand? && HidesExpr(item.e, Joins(item, typed, words), words);
    if item.Operand? {
      if Joins(item, typed, words) { JoinsWord(item.e, words); }
      ExprCompares(item.e, Joins(item, typed, words), words);
    }
    assert Compares(FoundItem(item, typed, words), calls, hides);
    if items.Item? {
      var goes := Goes(item, typed, words);
      ItemsCompare(items.rest, goes, words);
      ComparesConcat(FoundItem(item, typed, words), calls, hides,
                     FoundItems(items.rest, goes, words), CallsOfItems(items.rest), Hides(items.rest, goes, words));
    } else {
      ComparesConcat(FoundItem(item, typed, words), calls, hides, [], [], false);
    }
  }

  lemma {:induction false} ArgsCompare(args: Args, words: set<string>)
    requires TypeWords(words)
    ensures Compares(FoundArgs(args, words), CallsOfArgs(args), HidesArgs(args, words))
    decreases args, 0
  {
    match args
    case NoArgs =>
    case LastArg(a) => ItemsCompare(a, false, words);
    case Arg(a, rest) =>
      ItemsCompare(a, false, words);
      ArgsCompare(rest, words);
      ComparesConcat(FoundItems(a, false, words), CallsOfItems(a), Hides(a, false, words),
                     FoundArgs(rest, words), CallsOfArgs(rest), HidesArgs(rest, words));
  }

  /** The scanner finds exactly the calls of a printed expression, in order, if and only if none is hidden. */
  lemma ScanExact(items: Items, words: set<string>)
    requires ItemsOk(items, words) && TypeWords(words)
    ensures Calls(PrintItems(items), 0, Mode(true, words)) == CallsOfItems(items) <==> !Hides(items, false, words)
  {
    ScanFinds(items, words);
    ItemsCompare(items, false, words);
  }

  lemma KnownTypeWords()
    ensures TypeWords(TYPE_WORDS)
  {
    assert Every("day", SmallLetter) && Every("hour", SmallLetter) && Every("minute", SmallLetter);
    assert Every("month", SmallLetter) && Every("precision", SmallLetter) && Every("second", SmallLetter);
    assert Every("time", SmallLetter) && Every("to", SmallLetter) && Every("varying", SmallLetter);
    assert Every("with", SmallLetter) && Every("without", SmallLetter) && Every("year", SmallLetter);
    assert Every("zone", SmallLetter);
  }

  /** What a scan of a printed plan expression reports: each of its calls, once. */
  method ScanPrinted(items: Items) returns (refs: seq<FuncRef>)
    requires ItemsOk(items, TYPE_WORDS)
    ensures !Hides(items, false, TYPE_WORDS) ==> refs == Distinct(CallsOfItems(items))
    ensures refs == Distinct(FoundItems(items, false, TYPE_WORDS))
  {
    refs := ScanCalls(PrintItems(items), true);
    KnownTypeWords();
    ScanFinds(items, TYPE_WORDS);
    ScanExact(items, TYPE_WORDS);
  }

  /** A cast, a keyword, and a call. */
  function CastThenCall(cast: Expr, w: string, d: Dotted, args: Args): Items {
    Item(Operand(cast), Item(Keyword(w), LastItem(Operand(Call(d, args)))))
  }

  /**
    The shortest texts that hide a call: whatever the arguments, the call after the keyword is read
    rightly if and only if the keyword does not go on a type name, or the name of the function is
    longer than two parts or does not begin with such a word itself.
  */
  lemma TypeWordHidesCall(cast: Expr, w: string, d: Dotted, args: Args, words: set<string>)
    requires cast.Cast? && ExprOk(cast, words) && WordOk(w) && DottedOk(d) && ArgsOk(args, words) && TypeWords(words)
    requires !HidesExpr(cast, false, words) && !HidesArgs(args, words)
    ensures var items := CastThenCall(cast, w, d, args);
            Calls(PrintItems(items), 0, Mode(true, words)) == CallsOfItems(items)
            <==> !(Lower(w) in words && Lower(LeadName(d)) in words && Short(d))
  {
    var call := Operand(Call(d, args));
    var last := LastItem(call);
    var next := Item(Keyword(w), last);
    var items := CastThenCall(cast, w, d, args);
    assert ItemOk(call, words) && ItemsOk(last, words);
    assert ItemOk(next.item, words) && ItemsOk(next, words);
    assert ItemOk(items.item, words) && ItemsOk(items, words);
    assert Goes(items.item, false, words) && Goes(next.item, true, words) == (Lower(w) in words);
    assert Hides(last, Lower(w) in words, words) == HidesExpr(call.e, Joins(call, Lower(w) in words, words), words);
    assert Hides(next, true, words) == Hides(last, Lower(w) in words, words);
    ScanExact(items, words);
  }
}
