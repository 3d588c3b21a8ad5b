/** Nested block comments, and the first keyword of a statement. */
module SqlComments {

  predicate OpensAt(text: string, i: nat) {
    i + 1 < |text| && text[i] == '/' && text[i + 1] == '*'
  }

  predicate ClosesAt(text: string, i: nat) {
    i + 1 < |text| && text[i] == '*' && text[i + 1] == '/'
  }

  /** How far one step of a scan goes, and what it does to the depth. */
  function Width(text: string, i: nat): nat {
    if OpensAt(text, i) || ClosesAt(text, i) then 2 else 1
  }

  function Deeper(text: string, i: nat): int {
    if OpensAt(text, i) then 1 else if ClosesAt(text, i) then -1 else 0
  }

  /** Where the comment that is `depth` deep at i ends, or -1. */
  function CommentEnd(text: string, i: nat, depth: int): (end: int)
    ensures end == -1 || i + 2 <= end <= |text|
    decreases |text| - i
  {
    if i + 1 >= |text| then -1
    else if ClosesAt(text, i) && depth == 1 then i + 2
    else CommentEnd(text, i + Width(text, i), depth + Deeper(text, i))
  }

  /** The end of the block comment that opens the statement, or -1 when it is never closed. */
  method BlockCommentEnd(statement: string) returns (end: int)
    ensures end == CommentEnd(statement, 0, 0)
  {
    var depth, i := 0, 0;
    while i + 1 < |statement|
      invariant 0 <= i && CommentEnd(statement, i, depth) == CommentEnd(statement, 0, 0)
      decreases |statement| - i
    {
      if statement[i] == '/' && statement[i + 1] == '*' {
        depth := depth + 1;
        i := i + 2;
      } else if statement[i] == '*' && statement[i + 1] == '/' {
        depth := depth - 1;
        i := i + 2;
        if depth == 0 {
          return i;
        }
      } else {
        i := i + 1;
      }
    }
    return -1;
  }

  /** Skips the comment at i. An unclosed comment runs to the end of the text. */
  method SkipBlockComment(text: string, i: nat) returns (end: nat)
    ensures end == if CommentEnd(text, i, 0) == -1 then |text| else CommentEnd(text, i, 0)
  {
    var depth, j := 0, i;
    while j + 1 < |text|
      invariant i <= j && CommentEnd(text, j, depth) == CommentEnd(text, i, 0)
      decreases |text| - j
    {
      if text[j] == '/' && text[j + 1] == '*' {
        depth := depth + 1;
        j := j + 1;
      } else if text[j] == '*' && text[j + 1] == '/' {
        depth := depth - 1;
        j := j + 1;
        if depth == 0 {
          return j + 1;
        }
      }
      j := j + 1;
    }
    return |text|;
  }

  // ---- the grammar of comments ----

  /** What stands between the opening and the closing of a comment: characters and comments. */
  datatype Body = Empty | Char(c: char, rest: Body) | Nested(inner: Body, rest: Body)

  function Length(b: Body): nat {
    match b
    case Empty => 0
    case Char(_, rest) => 1 + Length(rest)
    case Nested(inner, rest) => 4 + Length(inner) + Length(rest)
  }

  /** The text spells out b at i. A character of a body does not begin an opening or a closing. */
  predicate Spells(text: string, i: nat, b: Body)
    decreases b
  {
    match b
    case Empty => true
    case Char(c, rest) => i < |text| && text[i] == c && !OpensAt(text, i) && !ClosesAt(text, i)
      && Spells(text, i + 1, rest)
    case Nested(inner, rest) =>
      && OpensAt(text, i) && Spells(text, i + 2, inner) && ClosesAt(text, i + 2 + Length(inner))
      && Spells(text, i + 4 + Length(inner), rest)
  }

  /** text[i..end] is a block comment. */
  ghost predicate IsComment(text: string, i: nat, end: int) {
    OpensAt(text, i) && exists b :: CommentOf(text, i, end, b)
  }

  predicate CommentOf(text: string, i: nat, end: int, b: Body) {
    Spells(text, i + 2, b) && ClosesAt(text, i + 2 + Length(b)) && end == i + 4 + Length(b)
  }

  lemma StepOn(text: string, i: nat, depth: nat)
    requires i + 1 < |text| && !(ClosesAt(text, i) && depth == 1)
    ensures CommentEnd(text, i, depth) == CommentEnd(text, i + Width(text, i), depth + Deeper(text, i))
  {}

  lemma {:induction false} ScansBody(text: string, i: nat, b: Body, depth: nat)
    requires Spells(text, i, b) && ClosesAt(text, i + Length(b)) && depth >= 1
    ensures CommentEnd(text, i, depth) == CommentEnd(text, i + Length(b), depth)
    decreases b
  {
    hide CommentEnd;
    match b
    case Empty =>
    case Char(_, rest) =>
      StepOn(text, i, depth);
      ScansBody(text, i + 1, rest, depth);
    case Nested(inner, rest) =>
      var k := i + 2 + Length(inner);
      StepOn(text, i, depth);
      ScansBody(text, i + 2, inner, depth + 1);
      StepOn(text, k, depth + 1);
      ScansBody(text, k + 2, rest, depth);
  }

  /** Where a scan stands once it has read the closing at i. */
  function Closed(text: string, i: nat, depth: nat): int
    requires depth >= 1
  {
    if depth == 1 then i + 2 else CommentEnd(text, i + 2, depth - 1)
  }

  lemma Closing(text: string, i: nat, depth: nat)
    requires ClosesAt(text, i) && depth >= 1
    ensures CommentEnd(text, i, depth) == Closed(text, i, depth)
  {}

  /** A scan that finds its end has passed over a body and the closing that follows it. */
  lemma {:induction false} FindsBody(text: string, i: nat, depth: nat) returns (b: Body)
    requires depth >= 1 && CommentEnd(text, i, depth) != -1
    ensures Spells(text, i, b) && ClosesAt(text, i + Length(b))
    ensures CommentEnd(text, i, depth) == Closed(text, i + Length(b), depth)
    decreases |text| - i
  {
    hide CommentEnd;
    if OpensAt(text, i) {
      b := FindsNested(text, i, depth);
    } else if ClosesAt(text, i) {
      Closing(text, i, depth);
      b := Empty;
    } else {
      StepOn(text, i, depth);
      var rest := FindsBody(text, i + 1, depth);
      b := Char(text[i], rest);
    }
  }

  lemma SpellsNested(text: string, i: nat, inner: Body, rest: Body)
    requires OpensAt(text, i) && Spells(text, i + 2, inner) && ClosesAt(text, i + 2 + Length(inner))
    requires Spells(text, i + 4 + Length(inner), rest)
    ensures Spells(text, i, Nested(inner, rest)) && Length(Nested(inner, rest)) == 4 + Length(inner) + Length(rest)
  {}

  lemma {:induction false} FindsNested(text: string, i: nat, depth: nat) returns (b: Body)
    requires depth >= 1 && CommentEnd(text, i, depth) != -1 && OpensAt(text, i)
    ensures Spells(text, i, b) && ClosesAt(text, i + Length(b))
    ensures CommentEnd(text, i, depth) == Closed(text, i + Length(b), depth)
    decreases |text| - i, 0
  {
    hide CommentEnd, Spells, Length;
    StepOn(text, i, depth);
    var inner := FindsBody(text, i + 2, depth + 1);
    var k := i + 2 + Length(inner);
    assert CommentEnd(text, i, depth) == CommentEnd(text, k + 2, depth);
    var rest := FindsBody(text, k + 2, depth);
    b := Nested(inner, rest);
    SpellsNested(text, i, inner, rest);
  }

  lemma BeginsComment(text: string, i: nat)
    requires OpensAt(text, i)
    ensures CommentEnd(text, i, 0) == CommentEnd(text, i + 2, 1)
  {
  }

  lemma OneEnd(text: string, i: nat, end: int)
    requires IsComment(text, i, end)
    ensures OpensAt(text, i) && end == CommentEnd(text, i, 0) && end != -1
  {
    hide CommentEnd;
    var b :| CommentOf(text, i, end, b);
    BeginsComment(text, i);
    ScansBody(text, i + 2, b, 1);
    Closing(text, i + 2 + Length(b), 1);
  }

  lemma SomeEnd(text: string, i: nat)
    requires OpensAt(text, i) && CommentEnd(text, i, 0) != -1
    ensures IsComment(text, i, CommentEnd(text, i, 0))
  {
    hide CommentEnd;
    BeginsComment(text, i);
    var b := FindsBody(text, i + 2, 1);
    assert CommentOf(text, i, CommentEnd(text, i, 0), b);
  }

  /**
    Both scanners find the end of the properly nested comment that begins at i if there is one,
    and report it unclosed exactly when there is none.
  */
  lemma CommentEndExact(text: string, i: nat, end: nat)
    requires OpensAt(text, i)
    ensures CommentEnd(text, i, 0) == end <==> IsComment(text, i, end)
    ensures CommentEnd(text, i, 0) == -1 <==> forall e: int :: !IsComment(text, i, e)
  {
    if CommentEnd(text, i, 0) != -1 {
      SomeEnd(text, i);
    }
    forall e: int | IsComment(text, i, e) ensures e == CommentEnd(text, i, 0) && e != -1 {
      OneEnd(text, i, e);
    }
  }

  // ---- the first keyword ----

  predicate Blank(c: char) {
    c == ' ' || c == '\t' || c == '\r' || c == '\n'
  }

  predicate Letter(c: char) {
    'A' <= c <= 'Z' || 'a' <= c <= 'z'
  }

  function Upper(c: char): char {
    if 'a' <= c <= 'z' then c - 'a' + 'A' else c
  }

  /** The letters at i, in upper case. */
  function WordAt(text: string, i: nat): string
    decreases |text| - i
  {
    if i >= |text| || !Letter(text[i]) then "" else [Upper(text[i])] + WordAt(text, i + 1)
  }

  function LineEnd(text: string, i: nat): (end: int)
    ensures end == -1 || i < end <= |text|
    decreases |text| - i
  {
    if i >= |text| then -1
    else if text[i] == '\r' || text[i] == '\n' then i + 1
    else LineEnd(text, i + 1)
  }

  predicate DashesAt(text: string, i: nat) {
    i + 1 < |text| && text[i] == '-' && text[i + 1] == '-'
  }

  function KeywordAt(text: string, i: nat): string
    decreases |text| - i
  {
    if i < |text| && Blank(text[i]) then KeywordAt(text, i + 1)
    else if DashesAt(text, i) then if LineEnd(text, i) == -1 then "" else KeywordAt(text, LineEnd(text, i))
    else if OpensAt(text, i) then if CommentEnd(text, i, 0) == -1 then "" else KeywordAt(text, CommentEnd(text, i, 0))
    else WordAt(text, i)
  }

  lemma {:induction false} CommentEndShift(text: string, k: nat, i: nat, depth: int)
    requires k <= |text|
    ensures CommentEnd(text[k..], i, depth) == (if CommentEnd(text, k + i, depth) == -1 then -1
      else CommentEnd(text, k + i, depth) - k)
    decreases |text| - k - i
  {
    if k + i + 1 < |text| {
      var t := text[k..];
      assert t[i] == text[k + i] && t[i + 1] == text[k + i + 1];
      CommentEndShift(text, k, i + Width(text, k + i), depth + Deeper(text, k + i));
    }
  }

  /** Skips blanks and comments, then reads the keyword. */
  method FirstSqlKeyword(statement: string) returns (keyword: string)
    ensures keyword == KeywordAt(statement, 0)
  {
    var at := 0;
    while true
      invariant 0 <= at <= |statement| && KeywordAt(statement, at) == KeywordAt(statement, 0)
      decreases |statement| - at
    {
      if at < |statement| && Blank(statement[at]) {
        at := at + 1;
      } else if at + 1 < |statement| && statement[at] == '-' && statement[at + 1] == '-' {
        var end := at;
        while end < |statement| && statement[end] != '\r' && statement[end] != '\n'
          invariant at <= end <= |statement| && LineEnd(statement, end) == LineEnd(statement, at)
        {
          end := end + 1;
        }
        if end == |statement| {
          return "";
        }
        at := end + 1;
      } else if at + 1 < |statement| && statement[at] == '/' && statement[at + 1] == '*' {
        var end := BlockCommentEnd(statement[at..]);
        CommentEndShift(statement, at, 0, 0);
        if end < 0 {
          return "";
        }
        at := at + end;
      } else {
        break;
      }
    }
    keyword := "";
    var end := at;
    while end < |statement| && Letter(statement[end])
      invariant at <= end <= |statement| && keyword + WordAt(statement, end) == WordAt(statement, at)
    {
      keyword := keyword + [Upper(statement[end])];
      end := end + 1;
    }
  }

  /** What may stand before a statement: blanks, line comments and block comments. */
  datatype Trivia = None | Space(after: Trivia) | Line(length: nat, after: Trivia) | Block(length: nat, after: Trivia)

  function TriviaLength(t: Trivia): nat {
    match t
    case None => 0
    case Space(after) => 1 + TriviaLength(after)
    case Line(n, after) => 3 + n + TriviaLength(after)
    case Block(n, after) => n + TriviaLength(after)
  }

  ghost predicate SpellsTrivia(text: string, i: nat, t: Trivia)
    decreases t
  {
    match t
    case None => true
    case Space(after) => i < |text| && Blank(text[i]) && SpellsTrivia(text, i + 1, after)
    case Line(n, after) =>
      && DashesAt(text, i) && i + 2 + n < |text| && (text[i + 2 + n] == '\r' || text[i + 2 + n] == '\n')
      && (forall j :: i <= j < i + 2 + n ==> text[j] != '\r' && text[j] != '\n') && SpellsTrivia(text, i + 3 + n, after)
    case Block(n, after) => IsComment(text, i, i + n) && SpellsTrivia(text, i + n, after)
  }

  lemma {:induction false} LineEndAt(text: string, i: nat, j: nat)
    requires i <= j < |text| && (text[j] == '\r' || text[j] == '\n')
    requires forall k :: i <= k < j ==> text[k] != '\r' && text[k] != '\n'
    ensures LineEnd(text, i) == j + 1
    decreases j - i
  {
    if i < j { LineEndAt(text, i + 1, j); }
  }

  /** Where the keyword is looked for after the first piece of trivia. */
  lemma SkipsFirst(text: string, i: nat, t: Trivia)
    requires SpellsTrivia(text, i, t) && !t.None?
    ensures KeywordAt(text, i) == KeywordAt(text, i + TriviaLength(t) - TriviaLength(t.after))
  {
    match t
    case Space(after) =>
    case Line(n, after) => LineEndAt(text, i, i + 2 + n);
    case Block(n, after) => OneEnd(text, i, i + n);
  }

  /**
    The keyword is the word that follows the blanks and comments, however many there are and however
    the block comments nest.
  */
  lemma {:induction false} KeywordAfterTrivia(text: string, i: nat, t: Trivia)
    requires SpellsTrivia(text, i, t)
    requires var j := i + TriviaLength(t); !(j < |text| && Blank(text[j])) && !DashesAt(text, j) && !OpensAt(text, j)
    ensures KeywordAt(text, i) == WordAt(text, i + TriviaLength(t))
    decreases t
  {
    hide IsComment, DashesAt, OpensAt;
    if !t.None? {
      SkipsFirst(text, i, t);
      KeywordAfterTrivia(text, i + TriviaLength(t) - TriviaLength(t.after), t.after);
    }
  }
}
