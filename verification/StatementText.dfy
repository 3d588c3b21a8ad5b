/**
  What the scanners make of a statement as someone wrote it: the case of its letters does not matter,
  and literals and dollar-quoted strings end where SQL says they do.
*/
module StatementText {
  import opened CallScanner
  import opened SqlComments
  import opened Texts

  // ---- texts that differ in case only ----

  predicate SameLetters(a: string, b: string) {
    |a| == |b| && forall k :: 0 <= k < |a| ==> LowerChar(a[k]) == LowerChar(b[k])
  }

  predicate NoLetter(c: char) {
    LowerChar(c) == c && !('a' <= c <= 'z')
  }

  /** Membership does not depend on the case of a letter. */
  ghost predicate CaseBlind(member: char -> bool) {
    forall c, d :: LowerChar(c) == LowerChar(d) ==> (member(c) <==> member(d))
  }

  lemma SameMark(a: string, b: string, i: nat, c: char)
    requires SameLetters(a, b) && NoLetter(c)
    ensures CharAt(a, i, c) <==> CharAt(b, i, c)
  {}

  lemma {:induction false} RunSame(a: string, b: string, i: nat, member: char -> bool)
    requires SameLetters(a, b) && CaseBlind(member) && i <= |a|
    ensures RunEnd(a, i, member) == RunEnd(b, i, member)
    decreases |a| - i
  {
    if i < |a| {
      assert LowerChar(a[i]) == LowerChar(b[i]);
      if member(a[i]) { RunSame(a, b, i + 1, member); }
    }
  }

  lemma AllSame(a: string, b: string, i: nat, j: nat, member: char -> bool)
    requires SameLetters(a, b) && CaseBlind(member) && i <= j <= |a|
    ensures All(a, i, j, member) <==> All(b, i, j, member)
  {}

  lemma {:induction false} StringSame(a: string, b: string, j: nat, escaped: bool)
    requires SameLetters(a, b)
    ensures StringEnd(a, j, escaped) == StringEnd(b, j, escaped)
    decreases |a| - j
  {
    if j < |a| {
      SameMark(a, b, j, '\\');
      SameMark(a, b, j, '\'');
      SameMark(a, b, j + 1, '\'');
      if a[j] == '\\' && escaped {
        if j + 1 < |a| { StringSame(a, b, j + 2, escaped); }
      } else if a[j] != '\'' {
        StringSame(a, b, j + 1, escaped);
      } else if CharAt(a, j + 1, '\'') {
        StringSame(a, b, j + 2, escaped);
      }
    }
  }

  lemma {:induction false} CommentSame(a: string, b: string, i: nat, depth: int)
    requires SameLetters(a, b)
    ensures CommentEnd(a, i, depth) == CommentEnd(b, i, depth)
    decreases |a| - i
  {
    if i + 1 < |a| {
      SameMark(a, b, i, '/');
      SameMark(a, b, i, '*');
      SameMark(a, b, i + 1, '/');
      SameMark(a, b, i + 1, '*');
      if !(ClosesAt(a, i) && depth == 1) { CommentSame(a, b, i + Width(a, i), depth + Deeper(a, i)); }
    }
  }

  lemma SameLower(a: string, b: string, i: nat, j: nat)
    requires SameLetters(a, b) && i <= j <= |a|
    ensures Lower(a[i..j]) == Lower(b[i..j])
  {}

  /** A text without quoted names and without dollar signs. */
  predicate Bare(text: string) {
    '"' !in text && '$' !in text
  }

  lemma BareAt(text: string, i: nat)
    requires Bare(text)
    ensures !CharAt(text, i, '"') && !CharAt(text, i, '$')
  {}

  lemma PartSame(a: string, b: string, i: nat)
    requires SameLetters(a, b) && Bare(a) && Bare(b)
    ensures NameAt(a, i) <==> NameAt(b, i)
    ensures NameAt(a, i) ==> NamePart(a, i, false) == NamePart(b, i, false)
  {
    BareAt(a, i);
    BareAt(b, i);
    if i < |a| {
      assert LowerChar(a[i]) == LowerChar(b[i]);
      RunSame(a, b, i, IdentByte);
      SameLower(a, b, i, RunEnd(a, i, IdentByte));
    }
  }

  /** The parts of an unquoted name are the same however its letters are written. */
  lemma {:induction false} NamesSame(a: string, b: string, i: nat)
    requires SameLetters(a, b) && Bare(a) && Bare(b) && NameAt(a, i)
    ensures NameAt(b, i) && Names(a, i, false) == Names(b, i, false)
    decreases |a| - i
  {
    hide NamePart, NameAt, SameLetters, Bare;
    PartSame(a, b, i);
    var p := NamePart(a, i, false);
    SameMark(a, b, p.end, '.');
    PartSame(a, b, p.end + 1);
    if CharAt(a, p.end, '.') && NameAt(a, p.end + 1) {
      NamesSame(a, b, p.end + 1);
    }
  }

  lemma ModifierSame(a: string, b: string, i: nat)
    requires SameLetters(a, b) && i <= |a|
    ensures ModifierEnd(a, i) == ModifierEnd(b, i)
  {
    SameMark(a, b, i, '(');
    RunSame(a, b, i, NotParenthesis);
    if CharAt(a, i, '(') { AllSame(a, b, i + 1, RunEnd(a, i, NotParenthesis), ModifierByte); }
  }

  lemma {:induction false} BoundsSame(a: string, b: string, i: nat)
    requires SameLetters(a, b) && i <= |a|
    ensures BoundsEnd(a, i) == BoundsEnd(b, i)
    decreases |a| - i
  {
    hide All, RunEnd;
    SameMark(a, b, i, '[');
    if i + 1 < |a| && a[i] == '[' {
      var close := RunEnd(a, i, NotBracket);
      RunSame(a, b, i, NotBracket);
      AllSame(a, b, i + 1, close, Digit);
      if close < |a| && All(a, i + 1, close, Digit) { BoundsSame(a, b, close + 1); }
    }
  }

  lemma TypeWordSame(a: string, b: string, i: nat, words: set<string>)
    requires SameLetters(a, b) && i <= |a|
    ensures TypeWordEnd(a, i, words) == TypeWordEnd(b, i, words)
  {
    SameMark(a, b, i, ' ');
    if CharAt(a, i, ' ') {
      RunSame(a, b, i + 1, IdentByte);
      SameLower(a, b, i + 1, RunEnd(a, i + 1, IdentByte));
    }
  }

  lemma {:induction false} TypeRestSame(a: string, b: string, i: nat, words: set<string>)
    requires SameLetters(a, b) && i <= |a|
    ensures TypeRestEnd(a, i, words) == TypeRestEnd(b, i, words)
    decreases |a| - i
  {
    ModifierSame(a, b, i);
    BoundsSame(a, b, ModifierEnd(a, i));
    var j := BoundsEnd(a, ModifierEnd(a, i));
    TypeWordSame(a, b, j, words);
    if TypeWordEnd(a, j, words) != j { TypeRestSame(a, b, TypeWordEnd(a, j, words), words); }
  }

  lemma TypeSame(a: string, b: string, i: nat, words: set<string>)
    requires SameLetters(a, b) && Bare(a) && Bare(b) && i <= |a|
    ensures TypeEnd(a, i, words) == TypeEnd(b, i, words)
  {
    RunSame(a, b, i, CallScanner.Space);
    var j := RunEnd(a, i, CallScanner.Space);
    PartSame(a, b, j);
    if NameAt(a, j) { NamesSame(a, b, j); }
    TypeRestSame(a, b, if NameAt(a, j) then Names(a, j, false).end else j, words);
  }

  lemma EscapedSame(a: string, b: string, i: nat)
    requires SameLetters(a, b) && i <= |a|
    ensures EscapedAt(a, i) <==> EscapedAt(b, i)
  {
    if i > 0 { assert LowerChar(a[i - 1]) == LowerChar(b[i - 1]); }
    if i > 1 { assert LowerChar(a[i - 2]) == LowerChar(b[i - 2]); }
  }

  /** The marks that begin a token stand at the same places. */
  lemma MarksSame(a: string, b: string, i: nat)
    requires SameLetters(a, b)
    ensures forall c :: c in "'-/*:" ==> (CharAt(a, i, c) <==> CharAt(b, i, c))
    ensures i < |a| ==> (Digit(a[i]) <==> Digit(b[i]))
  {
    forall c | c in "'-/*:" ensures CharAt(a, i, c) <==> CharAt(b, i, c) { SameMark(a, b, i, c); }
    if i < |a| { assert LowerChar(a[i]) == LowerChar(b[i]); }
  }

  /** What the token at i would be of each kind ends at the same place. */
  lemma EndsSame(a: string, b: string, i: nat, words: set<string>)
    requires SameLetters(a, b) && Bare(a) && Bare(b) && i < |a|
    ensures EscapedAt(a, i) == EscapedAt(b, i)
    ensures StringEnd(a, i + 1, EscapedAt(a, i)) == StringEnd(b, i + 1, EscapedAt(b, i))
    ensures LineCommentEnd(a, i) == LineCommentEnd(b, i) && BlockEnd(a, i) == BlockEnd(b, i)
    ensures i + 2 <= |a| ==> TypeEnd(a, i + 2, words) == TypeEnd(b, i + 2, words)
    ensures RunEnd(a, i, NumberByte) == RunEnd(b, i, NumberByte)
  {
    EscapedSame(a, b, i);
    StringSame(a, b, i + 1, EscapedAt(a, i));
    RunSame(a, b, i, NotLineEnd);
    CommentSame(a, b, i, 0);
    if i + 2 <= |a| { TypeSame(a, b, i + 2, words); }
    RunSame(a, b, i, NumberByte);
  }

  lemma TokenSame(a: string, b: string, i: nat, words: set<string>)
    requires SameLetters(a, b) && Bare(a) && Bare(b) && i < |a|
    ensures TokenEnd(a, i, Mode(false, words)) == TokenEnd(b, i, Mode(false, words))
  {
    hide StringEnd, LineCommentEnd, BlockEnd, TypeEnd, RunEnd, Names, SameLetters, EscapedAt;
    assert |a| == |b| by { SameSize(a, b); }
    MarksSame(a, b, i);
    MarksSame(a, b, i + 1);
    EndsSame(a, b, i, words);
    BareAt(a, i);
    BareAt(b, i);
    PartSame(a, b, i);
    if NameAt(a, i) { NamesSame(a, b, i); }
    assert forall c :: c in "'-/*:" ==> (a[i] == c <==> b[i] == c) by {
      assert forall c :: CharAt(a, i, c) == (a[i] == c) && CharAt(b, i, c) == (b[i] == c);
    }
    assert '\'' in "'-/*:" && '-' in "'-/*:" && '/' in "'-/*:" && ':' in "'-/*:" && '*' in "'-/*:";
  }

  lemma SameSize(a: string, b: string)
    requires SameLetters(a, b)
    ensures |a| == |b|
  {}

  lemma CallSame(a: string, b: string, i: nat, words: set<string>)
    requires SameLetters(a, b) && Bare(a) && Bare(b) && i < |a|
    ensures CallAt(a, i, Mode(false, words)) == CallAt(b, i, Mode(false, words))
  {
    PartSame(a, b, i);
    if NameAt(a, i) {
      NamesSame(a, b, i);
      var end := Names(a, i, false).end;
      RunSame(a, b, end, CallScanner.Space);
      SameMark(a, b, RunEnd(a, end, CallScanner.Space), '(');
    }
  }

  /**
    In a statement without quoted names and dollar signs the calls found do not depend on the case of
    its letters. Quoted names and dollar tags keep their case, as SQL has it.
  */
  lemma {:induction false} CaseDoesNotMatter(a: string, b: string, i: nat, words: set<string>)
    requires SameLetters(a, b) && Bare(a) && Bare(b)
    ensures Calls(a, i, Mode(false, words)) == Calls(b, i, Mode(false, words))
    decreases |a| - i
  {
    if i < |a| {
      TokenSame(a, b, i, words);
      CallSame(a, b, i, words);
      CaseDoesNotMatter(a, b, TokenEnd(a, i, Mode(false, words)), words);
    }
  }

  lemma {:induction false} LineSame(a: string, b: string, i: nat)
    requires SameLetters(a, b)
    ensures LineEnd(a, i) == LineEnd(b, i)
    decreases |a| - i
  {
    if i < |a| {
      SameMark(a, b, i, '\r');
      SameMark(a, b, i, '\n');
      LineSame(a, b, i + 1);
    }
  }

  lemma {:induction false} WordSame(a: string, b: string, i: nat)
    requires SameLetters(a, b)
    ensures WordAt(a, i) == WordAt(b, i)
    decreases |a| - i
  {
    if i < |a| {
      assert LowerChar(a[i]) == LowerChar(b[i]);
      WordSame(a, b, i + 1);
    }
  }

  /** The first keyword of a statement is read whatever its case, and whatever the case of what is before it. */
  lemma {:induction false} KeywordSame(a: string, b: string, i: nat)
    requires SameLetters(a, b)
    ensures KeywordAt(a, i) == KeywordAt(b, i)
    decreases |a| - i
  {
    WordSame(a, b, i);
    LineSame(a, b, i);
    CommentSame(a, b, i, 0);
    KeywordMarks(a, b, i);
    if i < |a| && SqlComments.Blank(a[i]) {
      KeywordSame(a, b, i + 1);
    } else if DashesAt(a, i) {
      if LineEnd(a, i) != -1 { KeywordSame(a, b, LineEnd(a, i)); }
    } else if OpensAt(a, i) {
      if CommentEnd(a, i, 0) != -1 { KeywordSame(a, b, CommentEnd(a, i, 0)); }
    }
  }

  lemma KeywordMarks(a: string, b: string, i: nat)
    requires SameLetters(a, b)
    ensures i < |a| ==> (SqlComments.Blank(a[i]) <==> SqlComments.Blank(b[i]))
    ensures DashesAt(a, i) <==> DashesAt(b, i)
    ensures OpensAt(a, i) <==> OpensAt(b, i)
  {
    MarksSame(a, b, i);
    MarksSame(a, b, i + 1);
    SameMark(a, b, i, '-');
    SameMark(a, b, i + 1, '-');
    SameMark(a, b, i, '/');
    SameMark(a, b, i + 1, '*');
    if i < |a| { assert LowerChar(a[i]) == LowerChar(b[i]); }
  }

  /** A keyword is the letters at its place, in capitals, and all of them. */
  lemma {:induction false} WordIsLetters(text: string, i: nat)
    requires i <= |text|
    ensures var w := WordAt(text, i);
      && i + |w| <= |text| && (i + |w| < |text| ==> !SqlComments.Letter(text[i + |w|]))
      && forall k :: 0 <= k < |w| ==> 'A' <= w[k] <= 'Z' && LowerChar(w[k]) == LowerChar(text[i + k])
    decreases |text| - i
  {
    if i < |text| && SqlComments.Letter(text[i]) { WordIsLetters(text, i + 1); }
  }

  // ---- literals ----

  /** What a literal holds: a character, a quote that is doubled, or a character after a backslash. */
  datatype Piece = Plain(c: char) | Quote | Escape(c: char)

  function SpellPiece(p: Piece): string {
    match p
    case Plain(c) => [c]
    case Quote => "''"
    case Escape(c) => ['\\', c]
  }

  function Spell(ps: seq<Piece>): string {
    if ps == [] then "" else SpellPiece(ps[0]) + Spell(ps[1..])
  }

  /** A backslash has its meaning in an escape literal only, and stands for itself in any other. */
  predicate PieceOk(p: Piece, escaped: bool) {
    match p
    case Plain(c) => c != '\'' && (escaped ==> c != '\\')
    case Quote => true
    case Escape(_) => escaped
  }

  /** A literal whose text begins at j holds these pieces, and then its closing quote. */
  predicate LiteralIs(text: string, j: nat, ps: seq<Piece>, escaped: bool) {
    && (forall k :: 0 <= k < |ps| ==> PieceOk(ps[k], escaped))
    && Spans(text, j, Spell(ps)) && CharAt(text, j + |Spell(ps)|, '\'') && !CharAt(text, j + |Spell(ps)| + 1, '\'')
  }

  lemma PieceSkipped(text: string, j: nat, p: Piece, escaped: bool)
    requires PieceOk(p, escaped) && Spans(text, j, SpellPiece(p))
    ensures StringEnd(text, j, escaped) == StringEnd(text, j + |SpellPiece(p)|, escaped)
  {
    Texts.Letter(text, j, SpellPiece(p), 0);
    Texts.Letter(text, j, SpellPiece(p), |SpellPiece(p)| - 1);
  }

  lemma LiteralTail(text: string, j: nat, ps: seq<Piece>, escaped: bool)
    requires ps != [] && LiteralIs(text, j, ps, escaped)
    ensures PieceOk(ps[0], escaped) && Spans(text, j, SpellPiece(ps[0]))
    ensures LiteralIs(text, j + |SpellPiece(ps[0])|, ps[1..], escaped)
    ensures |Spell(ps)| == |SpellPiece(ps[0])| + |Spell(ps[1..])|
  {
    Split(text, j, SpellPiece(ps[0]), Spell(ps[1..]));
  }

  lemma ClosingQuote(text: string, j: nat, escaped: bool)
    requires CharAt(text, j, '\'') && !CharAt(text, j + 1, '\'')
    ensures StringEnd(text, j, escaped) == j + 1
  {}

  lemma {:induction false} LiteralEnds(text: string, j: nat, ps: seq<Piece>, escaped: bool)
    requires LiteralIs(text, j, ps, escaped)
    ensures StringEnd(text, j, escaped) == j + |Spell(ps)| + 1
    decreases |ps|
  {
    hide StringEnd;
    if ps != [] {
      hide LiteralIs, SpellPiece, Spell;
      LiteralTail(text, j, ps, escaped);
      PieceSkipped(text, j, ps[0], escaped);
      LiteralEnds(text, j + |SpellPiece(ps[0])|, ps[1..], escaped);
    } else {
      ClosingQuote(text, j, escaped);
    }
  }

  lemma OneMorePiece(text: string, j: nat, p: Piece, ps: seq<Piece>, escaped: bool)
    requires PieceOk(p, escaped) && Spans(text, j, SpellPiece(p)) && LiteralIs(text, j + |SpellPiece(p)|, ps, escaped)
    ensures LiteralIs(text, j, [p] + ps, escaped)
  {
    var head, rest := SpellPiece(p), Spell(ps);
    assert ([p] + ps)[1..] == ps;
    assert Spell([p] + ps) == head + rest;
    forall k | 0 <= k < |head + rest| ensures text[j + k] == (head + rest)[k] {
      if k >= |head| { Texts.Letter(text, j + |head|, rest, k - |head|); }
    }
  }

  /** The piece at j, where a scan does not stop. */
  lemma PieceAt(text: string, j: nat, escaped: bool) returns (p: Piece)
    requires j < |text| && StringEnd(text, j, escaped) != |text|
    requires text[j] != '\'' || CharAt(text, j + 1, '\'')
    ensures PieceOk(p, escaped) && Spans(text, j, SpellPiece(p)) && SpellPiece(p) != ""
  {
    if text[j] == '\\' && escaped {
      p := Escape(text[j + 1]);
    } else if text[j] != '\'' {
      p := Plain(text[j]);
    } else {
      p := Quote;
    }
  }

  /** A scan that does not run to the end of the text has passed over a literal. */
  lemma {:induction false} FindsLiteral(text: string, j: nat, escaped: bool) returns (ps: seq<Piece>)
    requires j <= |text| && StringEnd(text, j, escaped) != |text|
    ensures LiteralIs(text, j, ps, escaped)
    decreases |text| - j
  {
    if text[j] == '\'' && !CharAt(text, j + 1, '\'') {
      ps := [];
    } else {
      hide StringEnd, LiteralIs, SpellPiece, PieceOk;
      var p := PieceAt(text, j, escaped);
      PieceSkipped(text, j, p, escaped);
      var rest := FindsLiteral(text, j + |SpellPiece(p)|, escaped);
      OneMorePiece(text, j, p, rest, escaped);
      ps := [p] + rest;
    }
  }

  /**
    A literal, escape or not, is skipped to the end of exactly the literal that SQL reads there, and to
    the end of the text when there is none.
  */
  lemma LiteralEndExact(text: string, j: nat, escaped: bool)
    requires j <= |text|
    ensures forall ps :: LiteralIs(text, j, ps, escaped) ==> StringEnd(text, j, escaped) == j + |Spell(ps)| + 1
    ensures (forall ps :: !LiteralIs(text, j, ps, escaped)) ==> StringEnd(text, j, escaped) == |text|
  {
    forall ps | LiteralIs(text, j, ps, escaped) ensures StringEnd(text, j, escaped) == j + |Spell(ps)| + 1 {
      LiteralEnds(text, j, ps, escaped);
    }
    if StringEnd(text, j, escaped) != |text| {
      var ps := FindsLiteral(text, j, escaped);
    }
  }

  // ---- dollar-quoted strings ----

  lemma {:induction false} FindFirst(text: string, i: nat, s: string)
    requires s != ""
    ensures var at := Find(text, i, s);
      forall k :: i <= k && (at == -1 || k < at) ==> !Spans(text, k, s)
    decreases |text| - i
  {
    if !Spans(text, i, s) && i < |text| { FindFirst(text, i + 1, s); }
  }

  /** A tag is made of letters, digits and underscores, and does not begin with a digit. */
  predicate TagOk(tag: string) {
    (forall k :: 0 <= k < |tag| ==> TagByte(tag[k])) && (tag != "" ==> !Digit(tag[0]))
  }

  function Fence(tag: string): string {
    "$" + (tag + "$")
  }

  ghost predicate FirstFence(text: string, body: nat, at: nat, tag: string) {
    body <= at && Spans(text, at, Fence(tag)) && forall k: nat :: body <= k < at ==> !Spans(text, k, Fence(tag))
  }

  lemma TagRun(text: string, i: nat, tag: string)
    requires TagOk(tag) && Spans(text, i, Fence(tag))
    ensures CharAt(text, i, '$') && RunEnd(text, i + 1, TagByte) == i + 1 + |tag| && CharAt(text, i + 1 + |tag|, '$')
    ensures !(i + 1 < |text| && Digit(text[i + 1])) && text[i..i + 2 + |tag|] == Fence(tag)
  {
    Split(text, i, "$", tag + "$");
    Split(text, i + 1, tag, "$");
    Texts.Letter(text, i, "$", 0);
    Texts.Letter(text, i + 1 + |tag|, "$", 0);
    if tag != "" { Texts.Letter(text, i + 1, tag, 0); }
    TagRunFrom(text, i + 1, tag, 0);
  }

  lemma {:induction false} TagRunFrom(text: string, j: nat, tag: string, k: nat)
    requires TagOk(tag) && k <= |tag| && Spans(text, j, tag) && CharAt(text, j + |tag|, '$')
    ensures RunEnd(text, j + k, TagByte) == j + |tag|
    decreases |tag| - k
  {
    if k < |tag| {
      Texts.Letter(text, j, tag, k);
      TagRunFrom(text, j, tag, k + 1);
    }
  }

  /**
    A dollar-quoted string ends at the first repetition of its opening, whatever stands before it, and
    at the end of the text when there is none.
  */
  lemma DollarEndExact(text: string, i: nat, tag: string, body: nat)
    requires i < |text| && TagOk(tag) && Spans(text, i, Fence(tag)) && body == i + |Fence(tag)|
    ensures forall at: nat :: FirstFence(text, body, at, tag) ==> DollarEnd(text, i) == at + |Fence(tag)|
    ensures (forall k: nat :: body <= k ==> !Spans(text, k, Fence(tag))) ==> DollarEnd(text, i) == |text|
  {
    TagRun(text, i, tag);
    FindFirst(text, body, Fence(tag));
  }

  // ---- line comments and names ----

  /** A line comment takes all up to and with the next line feed, or the rest of the text. */
  lemma LineCommentExact(text: string, i: nat)
    requires i < |text|
    ensures var end := LineCommentEnd(text, i);
      && i < end <= |text| && (forall k :: i <= k < end - 1 ==> text[k] != '\n')
      && (text[end - 1] == '\n' || end == |text|)
  {
    RunMembers(text, i, NotLineEnd);
  }

  lemma {:induction false} RunMembers(text: string, i: nat, member: char -> bool)
    requires i <= |text|
    ensures forall k :: i <= k < RunEnd(text, i, member) ==> member(text[k])
    decreases |text| - i
  {
    if i < |text| && member(text[i]) { RunMembers(text, i + 1, member); }
  }

  /** PostgreSQL's own rule for the characters of a name after its first one. */
  predicate InWord(c: char) {
    'a' <= c <= 'z' || 'A' <= c <= 'Z' || '0' <= c <= '9' || c == '_' || c == '$' || c > '\U{7F}'
  }

  /** The run from i ends at j: all between belong to it, and what stands at j does not. */
  lemma {:induction false} RunIs(text: string, i: nat, j: nat, member: char -> bool)
    requires i <= j <= |text| && (forall k :: i <= k < j ==> member(text[k])) && (j < |text| ==> !member(text[j]))
    ensures RunEnd(text, i, member) == j
    decreases j - i
  {
    if i < j { RunIs(text, i + 1, j, member); }
  }

  /**
    A word that is written in a statement is one token, and it is a call exactly when an opening
    parenthesis is the first thing after it that is no blank.
  */
  lemma WrittenCallExact(text: string, i: nat, j: nat, k: nat, words: set<string>)
    requires i < j <= k <= |text| && (forall m :: i <= m < j ==> InWord(text[m]))
    requires !('0' <= text[i] <= '9') && text[i] != '$'
    requires j < |text| ==> !InWord(text[j]) && text[j] != '.'
    requires forall m :: j <= m < k ==> text[m] in {' ', '\t', '\n', '\r', '\U{0C}'}
    requires k < |text| ==> text[k] !in {' ', '\t', '\n', '\r', '\U{0C}'}
    ensures TokenEnd(text, i, Mode(false, words)) == j
    ensures CallAt(text, i, Mode(false, words)) ==
            if k < |text| && text[k] == '(' then [FuncRef("", Lower(text[i..j]))] else []
  {
    RunIs(text, i, j, IdentByte);
    RunIs(text, j, k, CallScanner.Space);
    assert Names(text, i, false) == Reading([Lower(text[i..j])], false, j);
  }

  /** A quote begins an escape literal exactly when a lone E stands before it, and the literal is one token. */
  lemma LiteralTokenExact(text: string, i: nat, ps: seq<Piece>, mode: Mode)
    requires i < |text| && text[i] == '\''
    requires LiteralIs(text, i + 1, ps, i > 0 && text[i - 1] in {'e', 'E'} && (i > 1 ==> !InWord(text[i - 2])))
    ensures TokenEnd(text, i, mode) == i + 2 + |Spell(ps)|
  {
    LiteralEndExact(text, i + 1, EscapedAt(text, i));
  }

  /** A type modifier is numbers between parentheses, with commas and spaces. */
  lemma ModifierExact(text: string, i: nat, k: nat)
    requires i < k < |text| && text[i] == '(' && text[k] == ')'
    requires forall m :: i < m < k ==> '0' <= text[m] <= '9' || text[m] in {',', ' '}
    ensures ModifierEnd(text, i) == k + 1
  {
    RunIs(text, i, k, NotParenthesis);
  }

  /** A call is known by the last part of its name, and by the part before it if there is one. */
  lemma CalledBy(parts: seq<string>, schema: string, name: string)
    ensures RefOf([name]) == FuncRef("", name) && RefOf(parts + [schema, name]) == FuncRef(schema, name)
  {}
}
