/**
  The scanner that finds the function calls written in a SQL text. A text is the sequence of its
  bytes; positions are byte offsets, and every scan is stated as the offset at which it ends.
*/
module CallScanner {
  import opened SqlComments
  import opened Texts

  datatype FuncRef = FuncRef(schema: string, name: string)

  predicate IdentStart(c: char) {
    c == '_' || 'a' <= c <= 'z' || 'A' <= c <= 'Z' || c as int >= 0x80
  }

  predicate Digit(c: char) {
    '0' <= c <= '9'
  }

  predicate IdentByte(c: char) {
    IdentStart(c) || Digit(c) || c == '$'
  }

  predicate Space(c: char) {
    c == ' ' || c == '\t' || c == '\n' || c == '\r' || c == '\U{0C}'
  }

  predicate NumberByte(c: char) {
    IdentByte(c) || c == '.'
  }

  predicate TagByte(c: char) {
    IdentByte(c) && c != '$'
  }

  predicate NotLineEnd(c: char) {
    c != '\n'
  }

  predicate NotParenthesis(c: char) {
    c != ')'
  }

  predicate NotBracket(c: char) {
    c != ']'
  }

  predicate ModifierByte(c: char) {
    Digit(c) || c == ',' || c == ' '
  }

  // ---- where each kind of token ends ----

  /** The end of the longest run of member characters from i. */
  function RunEnd(text: string, i: nat, member: char -> bool): (end: nat)
    requires i <= |text|
    ensures i <= end <= |text| && (i < |text| && member(text[i]) ==> i < end)
    ensures end < |text| ==> !member(text[end])
    decreases |text| - i
  {
    if i < |text| && member(text[i]) then RunEnd(text, i + 1, member) else i
  }

  /** The end of a string literal whose text begins at j. */
  function StringEnd(text: string, j: nat, escaped: bool): (end: nat)
    ensures j <= end && end <= (if j < |text| then |text| else j)
    decreases |text| - j
  {
    if j >= |text| then j
    else if text[j] == '\\' && escaped then if j + 1 < |text| then StringEnd(text, j + 2, escaped) else |text|
    else if text[j] != '\'' then StringEnd(text, j + 1, escaped)
    else if CharAt(text, j + 1, '\'') then StringEnd(text, j + 2, escaped)
    else j + 1
  }

  function LineCommentEnd(text: string, i: nat): nat
    requires i <= |text|
  {
    var end := RunEnd(text, i, NotLineEnd);
    if end < |text| then end + 1 else |text|
  }

  function BlockEnd(text: string, i: nat): nat {
    var end := CommentEnd(text, i, 0);
    if end == -1 then |text| else end
  }

  /** The first place at or after i where s stands, or -1. */
  function Find(text: string, i: nat, s: string): (at: int)
    ensures at == -1 || (i <= at && Spans(text, at, s))
    decreases |text| - i
  {
    if Spans(text, i, s) then i else if i >= |text| then -1 else Find(text, i + 1, s)
  }

  function DollarEnd(text: string, i: nat): (end: nat)
    requires i < |text|
    ensures i < end <= |text|
  {
    if i + 1 < |text| && Digit(text[i + 1]) then RunEnd(text, i + 1, Digit)
    else
      var j := RunEnd(text, i + 1, TagByte);
      if !CharAt(text, j, '$') then i + 1
      else
        var tag := text[i..j + 1];
        var at := Find(text, j + 1, tag);
        if at == -1 then |text| else at + |tag|
  }

  /** The name between double quotes whose text begins at j, and where it ends. */
  function QuotedName(text: string, j: nat): (r: (string, nat))
    requires j <= |text|
    ensures j <= r.1 <= |text|
    decreases |text| - j
  {
    if j == |text| then ("", j)
    else if text[j] == '"' then
      if CharAt(text, j + 1, '"') then var r := QuotedName(text, j + 2); (['"'] + r.0, r.1) else ("", j + 1)
    else var r := QuotedName(text, j + 1); ([text[j]] + r.0, r.1)
  }

  predicate NameAt(text: string, i: nat) {
    i < |text| && (text[i] == '"' || IdentStart(text[i]))
  }

  datatype Part = Part(name: string, quoted: bool, end: nat)

  function NamePart(text: string, i: nat, deparsed: bool): (p: Part)
    requires NameAt(text, i)
    ensures i < p.end <= |text|
  {
    if text[i] == '"' then var r := QuotedName(text, i + 1); Part(r.0, true, r.1)
    else
      var end := RunEnd(text, i, IdentByte);
      Part(if deparsed then text[i..end] else Lower(text[i..end]), false, end)
  }

  /** The parts of a dotted name, whether its last part is a keyword, and where it ends. */
  datatype Reading = Reading(parts: seq<string>, keyword: bool, end: nat)

  function Names(text: string, i: nat, deparsed: bool): (r: Reading)
    requires NameAt(text, i)
    ensures |r.parts| >= 1 && i < r.end <= |text|
    decreases |text| - i
  {
    var p := NamePart(text, i, deparsed);
    if CharAt(text, p.end, '.') && NameAt(text, p.end + 1) then
      var r := Names(text, p.end + 1, deparsed);
      r.(parts := [p.name] + r.parts)
    else Reading([p.name], deparsed && !p.quoted && p.name != Lower(p.name), p.end)
  }

  function RefOf(parts: seq<string>): FuncRef
    requires |parts| >= 1
  {
    if |parts| == 1 then FuncRef("", parts[0]) else FuncRef(parts[|parts| - 2], parts[|parts| - 1])
  }

  /** How a text is read: as printed by PostgreSQL or not, and with which words a type name may go on. */
  datatype Mode = Mode(deparsed: bool, words: set<string>)

  const TYPE_WORDS: set<string> :=
    {"day", "hour", "minute", "month", "precision", "second", "time", "to", "varying", "with", "without", "year",
      "zone"}

  predicate All(text: string, i: nat, j: nat, member: char -> bool)
    requires i <= j <= |text|
  {
    forall k :: i <= k < j ==> member(text[k])
  }

  function ModifierEnd(text: string, i: nat): (end: nat)
    requires i <= |text|
    ensures i <= end <= |text|
  {
    if !CharAt(text, i, '(') then i
    else
      var close := RunEnd(text, i, NotParenthesis);
      if close == |text| || !All(text, i + 1, close, ModifierByte) then i else close + 1
  }

  function BoundsEnd(text: string, i: nat): (end: nat)
    requires i <= |text|
    ensures i <= end <= |text|
    decreases |text| - i
  {
    if i + 1 >= |text| || text[i] != '[' then i
    else
      var close := RunEnd(text, i, NotBracket);
      if close == |text| || !All(text, i + 1, close, Digit) then i else BoundsEnd(text, close + 1)
  }

  /** The end of a further word of a type name after i, or i when there is none. */
  function TypeWordEnd(text: string, i: nat, words: set<string>): (end: nat)
    requires i <= |text|
    ensures i <= end <= |text|
  {
    if !CharAt(text, i, ' ') then i
    else
      var end := RunEnd(text, i + 1, IdentByte);
      if end == i + 1 || Lower(text[i + 1..end]) !in words then i else end
  }

  /** The end of a type name whose first word ends at i. */
  function TypeRestEnd(text: string, i: nat, words: set<string>): (end: nat)
    requires i <= |text|
    ensures i <= end <= |text|
    decreases |text| - i
  {
    var j := BoundsEnd(text, ModifierEnd(text, i));
    var k := TypeWordEnd(text, j, words);
    if k == j then j else TypeRestEnd(text, k, words)
  }

  function TypeEnd(text: string, i: nat, words: set<string>): (end: nat)
    requires i <= |text|
    ensures i <= end <= |text|
  {
    var j := RunEnd(text, i, Space);
    TypeRestEnd(text, if NameAt(text, j) then Names(text, j, false).end else j, words)
  }

  // ---- the scan ----

  /** A quote at i opens an escape string: it follows an E that is a word of its own. */
  predicate EscapedAt(text: string, i: nat)
    requires i <= |text|
  {
    i > 0 && (text[i - 1] == 'E' || text[i - 1] == 'e') && (i < 2 || !IdentByte(text[i - 2]))
  }

  function TokenEnd(text: string, i: nat, mode: Mode): (end: nat)
    requires i < |text|
    ensures i < end <= |text|
  {
    var c := text[i];
    if c == '\'' then StringEnd(text, i + 1, EscapedAt(text, i))
    else if c == '-' && CharAt(text, i + 1, '-') then LineCommentEnd(text, i)
    else if c == '/' && CharAt(text, i + 1, '*') then BlockEnd(text, i)
    else if c == '$' then DollarEnd(text, i)
    else if c == ':' && CharAt(text, i + 1, ':') then TypeEnd(text, i + 2, mode.words)
    else if Digit(c) then RunEnd(text, i, NumberByte)
    else if NameAt(text, i) then Names(text, i, mode.deparsed).end
    else i + 1
  }

  /** The call whose name begins at i, if one does. */
  function CallAt(text: string, i: nat, mode: Mode): seq<FuncRef>
    requires i < |text|
  {
    if !NameAt(text, i) then []
    else
      var r := Names(text, i, mode.deparsed);
      if !r.keyword && CharAt(text, RunEnd(text, r.end, Space), '(') then [RefOf(r.parts)] else []
  }

  /** Every call from i on, in the order of the text. */
  function Calls(text: string, i: nat, mode: Mode): seq<FuncRef>
    decreases |text| - i
  {
    if i >= |text| then [] else CallAt(text, i, mode) + Calls(text, TokenEnd(text, i, mode), mode)
  }

  /** What is left of a list when only the first of equal elements is kept. */
  function Distinct(refs: seq<FuncRef>): seq<FuncRef> {
    if refs == [] then []
    else
      var front := Distinct(refs[..|refs| - 1]);
      if refs[|refs| - 1] in front then front else front + [refs[|refs| - 1]]
  }

  // ---- the methods ----

  method SkipRun(text: string, i: nat, member: char -> bool) returns (end: nat)
    requires i <= |text|
    ensures end == RunEnd(text, i, member)
  {
    end := i;
    while end < |text| && member(text[end])
      invariant i <= end <= |text| && RunEnd(text, end, member) == RunEnd(text, i, member)
    {
      end := end + 1;
    }
  }

  method SkipStringLiteral(text: string, i: nat, escaped: bool) returns (end: nat)
    requires i < |text|
    ensures end == StringEnd(text, i + 1, escaped)
  {
    var j := i + 1;
    while j < |text|
      invariant i < j && (j <= |text| ==> StringEnd(text, j, escaped) == StringEnd(text, i + 1, escaped))
      invariant j > |text| ==> StringEnd(text, i + 1, escaped) == |text|
      decreases |text| - j
    {
      if text[j] == '\\' {
        if escaped {
          j := j + 1;
        }
      } else if text[j] == '\'' {
        if j + 1 < |text| && text[j + 1] == '\'' {
          j := j + 1;
        } else {
          return j + 1;
        }
      }
      j := j + 1;
    }
    return |text|;
  }

  method Index(text: string, i: nat, s: string) returns (at: int)
    requires i <= |text|
    ensures at == Find(text, i, s)
  {
    at := i;
    while at + |s| <= |text|
      invariant i <= at && Find(text, at, s) == Find(text, i, s)
    {
      if text[at..at + |s|] == s {
        return;
      }
      if at == |text| {
        return -1;
      }
      at := at + 1;
    }
    NotFound(text, at, s);
    return -1;
  }

  lemma {:induction false} NotFound(text: string, i: nat, s: string)
    requires i + |s| > |text|
    ensures Find(text, i, s) == -1
    decreases |text| - i
  {
    if i < |text| { NotFound(text, i + 1, s); }
  }

  method SkipDollar(text: string, i: nat) returns (end: nat)
    requires i < |text|
    ensures end == DollarEnd(text, i)
  {
    if i + 1 < |text| && Digit(text[i + 1]) {
      end := SkipRun(text, i + 1, Digit);
      return;
    }
    var j := SkipRun(text, i + 1, TagByte);
    if j >= |text| || text[j] != '$' {
      return i + 1;
    }
    var tag := text[i..j + 1];
    var at := Index(text, j + 1, tag);
    end := if at >= 0 then at + |tag| else |text|;
  }

  method ReadQuotedName(text: string, i: nat) returns (part: string, end: nat)
    requires i <= |text|
    ensures part == QuotedName(text, i).0 && end == QuotedName(text, i).1
  {
    part, end := "", i;
    ghost var whole := QuotedName(text, i);
    while end < |text|
      invariant i <= end <= |text|
      invariant whole.0 == part + QuotedName(text, end).0 && whole.1 == QuotedName(text, end).1
    {
      if text[end] != '"' {
        part := part + [text[end]];
        end := end + 1;
      } else if end + 1 < |text| && text[end + 1] == '"' {
        part := part + ['"'];
        end := end + 2;
      } else {
        end := end + 1;
        return;
      }
    }
  }

  method ReadNamePart(text: string, i: nat, deparsed: bool) returns (part: string, quoted: bool, end: nat, ok: bool)
    requires i <= |text|
    ensures ok == NameAt(text, i)
    ensures if ok then Part(part, quoted, end) == NamePart(text, i, deparsed) else part == "" && end == i
  {
    if i >= |text| {
      return "", false, i, false;
    }
    if text[i] == '"' {
      part, end := ReadQuotedName(text, i + 1);
      return part, true, end, true;
    }
    if !IdentStart(text[i]) {
      return "", false, i, false;
    }
    end := SkipRun(text, i, IdentByte);
    part := text[i..end];
    if !deparsed {
      part := Lower(part);
    }
    return part, false, end, true;
  }

  /** The whole reading is the parts read so far and then what reading from `at` gives. */
  ghost predicate Continues(whole: Reading, text: string, at: nat, parts: seq<string>, deparsed: bool) {
    && NameAt(text, at)
    && var rest := Names(text, at, deparsed);
       whole.parts == parts + rest.parts && whole.keyword == rest.keyword && whole.end == rest.end
  }

  lemma NextPart(whole: Reading, text: string, at: nat, parts: seq<string>, deparsed: bool, p: Part)
    requires Continues(whole, text, at, parts, deparsed) && p == NamePart(text, at, deparsed)
    ensures CharAt(text, p.end, '.') && NameAt(text, p.end + 1)
            ==> Continues(whole, text, p.end + 1, parts + [p.name], deparsed)
    ensures !(CharAt(text, p.end, '.') && NameAt(text, p.end + 1))
            ==> whole == Reading(parts + [p.name], deparsed && !p.quoted && p.name != Lower(p.name), p.end)
  {
    if CharAt(text, p.end, '.') && NameAt(text, p.end + 1) {
      var rest := Names(text, p.end + 1, deparsed).parts;
      assert parts + ([p.name] + rest) == parts + [p.name] + rest;
    }
  }

  method ReadParts(text: string, i: nat, deparsed: bool) returns (parts: seq<string>, keyword: bool, end: nat)
    requires i <= |text|
    ensures NameAt(text, i) ==> Names(text, i, deparsed) == Reading(parts, keyword, end)
    ensures !NameAt(text, i) ==> parts == [] && end == i
  {
    parts, keyword, end := [], true, i;
    if !NameAt(text, i) {
      return;
    }
    var at := i;
    ghost var whole := Names(text, i, deparsed);
    assert whole.parts == [] + whole.parts;
    while true
      invariant at <= |text| && Continues(whole, text, at, parts, deparsed)
      decreases |text| - at
    {
      var p, more := ReadNextPart(text, at, deparsed, whole, parts);
      parts := parts + [p.name];
      keyword := deparsed && !p.quoted && p.name != Lower(p.name);
      end := p.end;
      if !more {
        break;
      }
      at := p.end + 1;
    }
  }

  method ReadNextPart(text: string, at: nat, deparsed: bool, ghost whole: Reading,
                      ghost parts: seq<string>) returns (p: Part, more: bool)
    requires at <= |text| && Continues(whole, text, at, parts, deparsed)
    ensures at < p.end <= |text|
    ensures more ==> p.end < |text| && Continues(whole, text, p.end + 1, parts + [p.name], deparsed)
    ensures !more ==> whole == Reading(parts + [p.name], deparsed && !p.quoted && p.name != Lower(p.name), p.end)
  {
    var part, quoted, next, ok := ReadNamePart(text, at, deparsed);
    p := Part(part, quoted, next);
    NextPart(whole, text, at, parts, deparsed, p);
    more := next < |text| && text[next] == '.' && next + 1 < |text|
      && (text[next + 1] == '"' || IdentStart(text[next + 1]));
  }

  method ReadQualifiedName(text: string, i: nat, deparsed: bool) returns (ref: FuncRef, keyword: bool, end: nat)
    requires i <= |text|
    ensures NameAt(text, i) ==>
      var r := Names(text, i, deparsed); ref == RefOf(r.parts) && keyword == r.keyword && end == r.end
    ensures !NameAt(text, i) ==> ref == FuncRef("", "") && keyword && end == i
  {
    var parts, last, stop := ReadParts(text, i, deparsed);
    if |parts| == 0 {
      return FuncRef("", ""), true, stop;
    } else if |parts| == 1 {
      return FuncRef("", parts[0]), last, stop;
    } else {
      return FuncRef(parts[|parts| - 2], parts[|parts| - 1]), last, stop;
    }
  }

  method SkipTypeModifier(text: string, i: nat) returns (end: nat)
    requires i <= |text|
    ensures end == ModifierEnd(text, i)
  {
    if i >= |text| || text[i] != '(' {
      return i;
    }
    var close := SkipRun(text, i, NotParenthesis);
    if close == |text| || !All(text, i + 1, close, ModifierByte) {
      return i;
    }
    return close + 1;
  }

  method SkipArrayBounds(text: string, i: nat) returns (end: nat)
    requires i <= |text|
    ensures end == BoundsEnd(text, i)
  {
    end := i;
    while end + 1 < |text| && text[end] == '['
      invariant i <= end <= |text| && BoundsEnd(text, end) == BoundsEnd(text, i)
    {
      var close := SkipRun(text, end, NotBracket);
      if close == |text| || !All(text, end + 1, close, Digit) {
        return;
      }
      end := close + 1;
    }
  }

  method SkipTypeName(text: string, i: nat, words: set<string>) returns (end: nat)
    requires i <= |text|
    ensures end == TypeEnd(text, i, words)
  {
    var start := SkipRun(text, i, Space);
    var ref, keyword, at := ReadQualifiedName(text, start, false);
    end := SkipTypeRest(text, at, words);
  }

  method SkipTypeWord(text: string, i: nat, words: set<string>) returns (end: nat)
    requires i <= |text|
    ensures end == TypeWordEnd(text, i, words)
  {
    if i >= |text| || text[i] != ' ' {
      return i;
    }
    var k := SkipRun(text, i + 1, IdentByte);
    if k == i + 1 || Lower(text[i + 1..k]) !in words {
      return i;
    }
    return k;
  }

  method SkipTypeRest(text: string, i: nat, words: set<string>) returns (end: nat)
    requires i <= |text|
    ensures end == TypeRestEnd(text, i, words)
  {
    ghost var whole := TypeRestEnd(text, i, words);
    var at := i;
    while true
      invariant at <= |text| && whole == TypeRestEnd(text, at, words)
      decreases |text| - at
    {
      var modified := SkipTypeModifier(text, at);
      end := SkipArrayBounds(text, modified);
      var next := SkipTypeWord(text, end, words);
      if next == end {
        return;
      }
      at := next;
    }
  }

  method ScanName(text: string, i: nat, mode: Mode) returns (end: nat, call: seq<FuncRef>)
    requires NameAt(text, i)
    ensures end == Names(text, i, mode.deparsed).end && call == CallAt(text, i, mode) && |call| <= 1
  {
    call := [];
    var ref, keyword, next := ReadQualifiedName(text, i, mode.deparsed);
    end := next;
    var j := SkipRun(text, end, Space);
    if !keyword && j < |text| && text[j] == '(' {
      call := [ref];
    }
  }

  /** Reads the token at i: where it ends, and the call it names if it names one. */
  method ScanToken(text: string, i: nat, mode: Mode) returns (end: nat, call: seq<FuncRef>)
    requires i < |text|
    ensures end == TokenEnd(text, i, mode) && call == CallAt(text, i, mode)
    ensures i < end <= |text| && |call| <= 1
  {
    hide StringEnd, DollarEnd, TypeEnd, Names, RunEnd, CommentEnd;
    var c := text[i];
    call := [];
    if c == '\'' {
      end := SkipStringLiteral(text, i, EscapedAt(text, i));
    } else if c == '-' && i + 1 < |text| && text[i + 1] == '-' {
      end := SkipRun(text, i, NotLineEnd);
      end := if end < |text| then end + 1 else |text|;
    } else if c == '/' && i + 1 < |text| && text[i + 1] == '*' {
      end := SkipBlockComment(text, i);
    } else if c == '$' {
      end := SkipDollar(text, i);
    } else if c == ':' && i + 1 < |text| && text[i + 1] == ':' {
      end := SkipTypeName(text, i + 2, mode.words);
    } else if Digit(c) {
      end := SkipRun(text, i, NumberByte);
    } else if c == '"' || IdentStart(c) {
      end, call := ScanName(text, i, mode);
    } else {
      end := i + 1;
    }
  }

  /** `after` gives the calls from every offset on. */
  ghost predicate CallsFrom(text: string, mode: Mode, after: nat -> seq<FuncRef>) {
    forall i: nat {:trigger Calls(text, i, mode)} :: after(i) == Calls(text, i, mode)
  }

  method NextToken(text: string, i: nat, mode: Mode, ghost after: nat -> seq<FuncRef>)
    returns (end: nat, call: seq<FuncRef>)
    requires i < |text| && CallsFrom(text, mode, after)
    ensures i < end <= |text| && |call| <= 1 && after(i) == call + after(end)
  {
    end, call := ScanToken(text, i, mode);
    assert Calls(text, i, mode) == call + Calls(text, end, mode);
  }

  method CollectCalls(text: string, mode: Mode, ghost after: nat -> seq<FuncRef>) returns (refs: seq<FuncRef>)
    requires CallsFrom(text, mode, after) && after(|text|) == []
    ensures refs == Distinct(after(0))
  {
    refs := [];
    var seen: set<FuncRef> := {};
    var i := 0;
    ghost var found: seq<FuncRef> := [];
    while i < |text|
      invariant 0 <= i <= |text| && after(0) == found + after(i)
      invariant refs == Distinct(found) && forall r :: r in seen <==> r in refs
      decreases |text| - i
    {
      var end, call := NextToken(text, i, mode, after);
      assert found + (call + after(end)) == found + call + after(end);
      if |call| == 1 {
        assert call == [call[0]];
        DistinctOneMore(found, call[0]);
        if call[0] !in seen {
          seen := seen + {call[0]};
          refs := refs + [call[0]];
        }
      }
      assert |call| == 0 ==> found + call == found;
      found := found + call;
      i := end;
    }
    assert found == found + after(i);
  }

  /** The function calls written in the text, each once, in order of first appearance. */
  method ScanCalls(text: string, deparsed: bool) returns (refs: seq<FuncRef>)
    ensures refs == Distinct(Calls(text, 0, Mode(deparsed, TYPE_WORDS)))
  {
    var mode := Mode(deparsed, TYPE_WORDS);
    refs := CollectCalls(text, mode, (i: nat) => Calls(text, i, mode));
  }

  lemma DistinctOneMore(front: seq<FuncRef>, r: FuncRef)
    ensures Distinct(front + [r]) == if r in Distinct(front) then Distinct(front) else Distinct(front) + [r]
  {
    assert (front + [r])[..|front|] == front;
  }

  function FirstIndex(refs: seq<FuncRef>, r: FuncRef): nat {
    if refs == [] || refs[0] == r then 0 else 1 + FirstIndex(refs[1..], r)
  }

  lemma {:induction false} FirstIndexGrows(refs: seq<FuncRef>, r: FuncRef, last: FuncRef)
    ensures FirstIndex(refs, r) <= |refs| && (r in refs <==> FirstIndex(refs, r) < |refs|)
    ensures r in refs || r == last ==> FirstIndex(refs + [last], r) == FirstIndex(refs, r)
  {
    if refs != [] && refs[0] != r {
      assert (refs + [last])[1..] == refs[1..] + [last];
      FirstIndexGrows(refs[1..], r, last);
    }
  }

  /** Each call once, none lost, none added, in the order in which each first appears. */
  lemma {:induction false} DistinctExact(refs: seq<FuncRef>)
    ensures forall r :: r in Distinct(refs) <==> r in refs
    ensures forall i, j :: 0 <= i < j < |Distinct(refs)| ==>
      FirstIndex(refs, Distinct(refs)[i]) < FirstIndex(refs, Distinct(refs)[j])
  {
    if refs != [] {
      var front, last := refs[..|refs| - 1], refs[|refs| - 1];
      assert refs == front + [last];
      DistinctExact(front);
      forall r ensures FirstIndex(front, r) <= |front| && (r in front <==> FirstIndex(front, r) < |front|)
                       && (r in front || r == last ==> FirstIndex(refs, r) == FirstIndex(front, r)) {
        FirstIndexGrows(front, r, last);
      }
    }
  }
}
