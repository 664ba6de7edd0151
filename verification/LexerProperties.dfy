/** What successful lexing guarantees: lines compose at blanks, and the tokens are shaped as the parser needs. */
module LexerProperties {
  import opened Syntax
  import opened Lexer
  import opened LexicalGrammar
  import LexicalReadings
  import Parser
  import Grammar

  // ---------- lexing is compositional ----------

  /** `ts` without its last token, followed by `more`. */
  function Splice(ts: List<Token>, more: List<Token>): List<Token> {
    match ts
    case Nil => more
    case Cons(_, Nil) => more
    case Cons(t, tail) => Cons(t, Splice(tail, more))
  }

  function Shift(ts: List<Token>, d: nat): List<Token> {
    match ts
    case Nil => Nil
    case Cons(t, tail) => Cons(t.(position := t.position + d), Shift(tail, d))
  }

  function ShiftPending(w: Pending, d: nat): Pending {
    match w case Idle => Idle case Building(text, start) => Building(text, start + d)
  }

  lemma {:induction false} ScanShifted(s: List<char>, pos: nat, w: Pending, quote: Quote, d: nat)
    ensures Scan(s, pos + d, ShiftPending(w, d), quote) ==
            Stream(Shift(Scan(s, pos, w, quote).tokens, d), Scan(s, pos, w, quote).error)
    decreases s
  {
    hide Scan, OperatorAt;
    var w' := ShiftPending(w, d);
    if s.Nil? {
      ScanEnd(pos, w, quote);
      ScanEnd(pos + d, w', quote);
      assert Shift(Cons(Token(End, "", pos), Nil), d) == Cons(Token(End, "", pos + d), Nil);
      return;
    }
    var Cons(c, t) := s;
    if c == '\\' && quote != Single {
      ScanEscape(t, pos, w, quote);
      ScanEscape(t, pos + d, w', quote);
      if t.Cons? {
        ScanShifted(t.tail, pos + 2, Grow(w, pos, Unescape(t.head, quote)), quote, d);
      }
    } else if Toggles(c, quote) {
      ScanQuote(c, t, pos, w, quote);
      ScanQuote(c, t, pos + d, w', quote);
      ScanShifted(t, pos + 1, Grow(w, pos, ""), Toggled(c, quote), d);
    } else if quote != Plain {
      ScanQuoted(c, t, pos, w, quote);
      ScanQuoted(c, t, pos + d, w', quote);
      ScanShifted(t, pos + 1, Grow(w, pos, [c]), quote, d);
    } else if IsSpace(c) {
      ScanBlank(c, t, pos, w);
      ScanBlank(c, t, pos + d, w');
      ScanShifted(t, pos + 1, Idle, Plain, d);
    } else {
      ScanPlain(c, t, pos, w);
      ScanPlain(c, t, pos + d, w');
      match OperatorAt(s, w.Building?)
      case Found(kind, text, r) => ScanShifted(r, pos + |text|, Idle, Plain, d);
      case NotFound => ScanShifted(t, pos + 1, Grow(w, pos, [c]), Plain, d);
    }
  }

  /** A blank after the text changes no operator in it. */
  lemma {:induction false} OperatorBeforeBlank(s: List<char>, blank: char, rest: List<char>, pending: bool)
    requires s.Cons? && IsSpace(blank)
    ensures OperatorAt(Append(s, Cons(blank, rest)), pending) ==
            match OperatorAt(s, pending)
            case NotFound => NotFound
            case Found(kind, text, r) => Found(kind, text, Append(r, Cons(blank, rest)))
  {
    var s', t := Append(s, Cons(blank, rest)), s.tail;
    assert s'.tail == Append(t, Cons(blank, rest));
    if t.Cons? {
      assert s'.tail.tail == Append(t.tail, Cons(blank, rest));
      assert t.tail.Cons? ==> s'.tail.tail.tail == Append(t.tail.tail, Cons(blank, rest));
    }
  }

  lemma {:induction false} OperatorLength(s: List<char>, pending: bool)
    requires OperatorAt(s, pending).Found?
    ensures Length(s) == |OperatorAt(s, pending).text| + Length(OperatorAt(s, pending).rest)
  {
    assert Length(s) == 1 + Length(s.tail);
    if s.tail.Cons? {
      assert Length(s.tail) == 1 + Length(s.tail.tail);
    }
  }

  lemma {:induction false} ScanBeforeBlank(
    s: List<char>, blank: char, rest: List<char>, pos: nat, w: Pending, quote: Quote)
    requires IsSpace(blank) && Scan(s, pos, w, quote).error == ""
    ensures Scan(s, pos, w, quote).tokens.Cons?
    ensures var Stream(more, error) := Scan(rest, pos + Length(s) + 1, Idle, Plain);
            Scan(Append(s, Cons(blank, rest)), pos, w, quote) ==
            Stream(Splice(Scan(s, pos, w, quote).tokens, more), error)
    decreases s
  {
    hide Scan, OperatorAt;
    var after := Cons(blank, rest);
    if s.Nil? {
      ScanEnd(pos, w, quote);
      ScanBlank(blank, rest, pos, w);
      return;
    }
    var Cons(c, t) := s;
    var t' := Append(t, after);
    if c == '\\' && quote != Single {
      ScanEscape(t, pos, w, quote);
      ScanEscape(t', pos, w, quote);
      ScanBeforeBlank(t.tail, blank, rest, pos + 2, Grow(w, pos, Unescape(t.head, quote)), quote);
    } else if Toggles(c, quote) {
      ScanQuote(c, t, pos, w, quote);
      ScanQuote(c, t', pos, w, quote);
      ScanBeforeBlank(t, blank, rest, pos + 1, Grow(w, pos, ""), Toggled(c, quote));
    } else if quote != Plain {
      ScanQuoted(c, t, pos, w, quote);
      ScanQuoted(c, t', pos, w, quote);
      ScanBeforeBlank(t, blank, rest, pos + 1, Grow(w, pos, [c]), quote);
    } else if IsSpace(c) {
      ScanBlank(c, t, pos, w);
      ScanBlank(c, t', pos, w);
      ScanBeforeBlank(t, blank, rest, pos + 1, Idle, Plain);
    } else {
      ScanPlain(c, t, pos, w);
      ScanPlain(c, t', pos, w);
      OperatorBeforeBlank(s, blank, rest, w.Building?);
      match OperatorAt(s, w.Building?)
      case Found(kind, text, r) =>
        OperatorLength(s, w.Building?);
        ScanBeforeBlank(r, blank, rest, pos + |text|, Idle, Plain);
      case NotFound => ScanBeforeBlank(t, blank, rest, pos + 1, Grow(w, pos, [c]), Plain);
    }
  }

  /** Lines joined by a blank lex to their tokens joined, and fail exactly when the second line does. */
  lemma {:induction false} LexComposes(a: string, blank: char, b: string)
    requires IsSpace(blank) && Lexed(a).error == ""
    ensures Lexed(a + [blank] + b) ==
            Stream(Splice(Lexed(a).tokens, Shift(Lexed(b).tokens, |a| + 1)), Lexed(b).error)
  {
    assert a + [blank] + b == a + ([blank] + b);
    ListedAppend(a, [blank] + b, 0);
    ListedAppend([blank], b, 0);
    assert Listed([blank], 1) == Nil && Listed([blank], 0) == Cons(blank, Nil);
    assert Listed([blank] + b, 0) == Cons(blank, Listed(b, 0));
    ScanBeforeBlank(Listed(a, 0), blank, Listed(b, 0), 0, Idle, Plain);
    ScanShifted(Listed(b, 0), 0, Idle, Plain, |a| + 1);
  }

  // ---------- the shape of the tokens ----------

  /** One end marker, in last place; positions increase from `from`; an operator's text is what stands there. */
  ghost predicate Shaped(input: string, ts: List<Token>, from: nat) {
    match ts
    case Nil => false
    case Cons(t, Nil) => t == Token(End, "", |input|) && from <= |input|
    case Cons(t, tail) =>
      && from <= t.position < |input| && t.kind != End
      && (t.kind != Word ==> StandsAt(input, t.text, t.position))
      && Shaped(input, tail, t.position + 1)
  }

  ghost predicate StandsAt(input: string, text: string, pos: nat) {
    pos + |text| <= |input| && input[pos..pos + |text|] == text
  }

  /** Reading one character off the front moves one place along the input. */
  lemma {:induction false} Step(input: string, pos: nat, c: char, rest: List<char>)
    requires pos <= |input| && Listed(input, pos) == Cons(c, rest)
    ensures pos < |input| && input[pos] == c && Listed(input, pos + 1) == rest
  {
  }

  lemma {:induction false} StepBody(input: string, pos: nat, body: List<char>, rest: List<char>)
    requires pos <= |input| && Listed(input, pos) == Append(body, rest)
    ensures pos + Length(body) <= |input| && Listed(input, pos + Length(body)) == rest
    decreases body
  {
    if body.Cons? {
      Step(input, pos, body.head, Append(body.tail, rest));
      StepBody(input, pos + 1, body.tail, rest);
    }
  }

  lemma {:induction false} StepParts(input: string, pos: nat, parts: List<DoublePiece>, rest: List<char>)
    requires pos <= |input| && Listed(input, pos) == PartsText(parts, rest)
    ensures pos + PartsSize(parts) <= |input| && Listed(input, pos + PartsSize(parts)) == rest
    decreases parts
  {
    if parts.Cons? {
      var tail := PartsText(parts.tail, rest);
      if parts.head.Literal? {
        Step(input, pos, parts.head.c, tail);
        StepParts(input, pos + 1, parts.tail, rest);
      } else {
        Step(input, pos, '\\', Cons(parts.head.c, tail));
        Step(input, pos + 1, parts.head.c, tail);
        StepParts(input, pos + 2, parts.tail, rest);
      }
    }
  }

  lemma {:induction false} StepPiece(input: string, pos: nat, p: Piece, rest: List<char>)
    requires pos <= |input| && Listed(input, pos) == PieceText(p, rest)
    ensures pos < pos + PieceSize(p) <= |input| && Listed(input, pos + PieceSize(p)) == rest
  {
    Step(input, pos, PieceText(p, rest).head, PieceText(p, rest).tail);
    match p
    case Bare(c) =>
    case Escape(c) => Step(input, pos + 1, c, rest);
    case SingleQuoted(body) =>
      StepBody(input, pos + 1, body, Cons('\'', rest));
      Step(input, pos + 1 + Length(body), '\'', rest);
    case DoubleQuoted(parts) =>
      StepParts(input, pos + 1, parts, Cons('"', rest));
      Step(input, pos + 1 + PartsSize(parts), '"', rest);
  }

  lemma {:induction false} StepPieces(input: string, pos: nat, ps: List<Piece>, rest: List<char>)
    requires pos <= |input| && Listed(input, pos) == PiecesText(ps, rest)
    ensures pos + PiecesSize(ps) <= |input| && Listed(input, pos + PiecesSize(ps)) == rest
    ensures ps.Cons? ==> PiecesSize(ps) > 0
    decreases ps
  {
    if ps.Cons? {
      StepPiece(input, pos, ps.head, PiecesText(ps.tail, rest));
      StepPieces(input, pos + PieceSize(ps.head), ps.tail, rest);
    }
  }

  lemma {:induction false} StepOperator(input: string, pos: nat, kind: TokenType, one: bool, rest: List<char>)
    requires kind != Word && kind != End
    requires pos <= |input| && Listed(input, pos) == OperatorText(kind, one, rest)
    ensures StandsAt(input, Spelling(kind, one), pos) && |Spelling(kind, one)| > 0
    ensures Listed(input, pos + |Spelling(kind, one)|) == rest
  {
    var s := Listed(input, pos);
    Step(input, pos, s.head, s.tail);
    if |Spelling(kind, one)| > 1 {
      Step(input, pos + 1, s.tail.head, s.tail.tail);
    }
    if |Spelling(kind, one)| > 2 {
      Step(input, pos + 2, s.tail.tail.head, s.tail.tail.tail);
    }
    var text := Spelling(kind, one);
    assert forall k | 0 <= k < |text| :: input[pos + k] == text[k];
  }

  lemma {:induction false} ShapedLater(input: string, ts: List<Token>, from: nat, from': nat)
    requires Shaped(input, ts, from) && from' <= from
    ensures Shaped(input, ts, from')
  {
  }

  lemma {:induction false} ReadingShaped(input: string, ls: List<Lexeme>, pos: nat, afterWord: bool)
    requires pos <= |input| && Text(ls, Nil) == Listed(input, pos) && WellFormed(ls, afterWord)
    ensures Shaped(input, TokensOf(ls, pos), pos)
    decreases ls
  {
    hide OperatorText, Spelling, PiecesText, PiecesSize, StandsAt;
    match ls
    case Nil =>
    case Cons(Blank(c), tail) =>
      Step(input, pos, c, Text(tail, Nil));
      ReadingShaped(input, tail, pos + 1, false);
      ShapedLater(input, TokensOf(tail, pos + 1), pos + 1, pos);
    case Cons(Operator(kind, one), tail) =>
      StepOperator(input, pos, kind, one, Text(tail, Nil));
      var next := pos + |Spelling(kind, one)|;
      AtMost(input, Spelling(kind, one), pos);
      ReadingShaped(input, tail, next, false);
      ShapedLater(input, TokensOf(tail, next), next, pos + 1);
    case Cons(WordOf(pieces), tail) =>
      StepPieces(input, pos, pieces, Text(tail, Nil));
      var next := pos + PiecesSize(pieces);
      ReadingShaped(input, tail, next, true);
      ShapedLater(input, TokensOf(tail, next), next, pos + 1);
  }

  lemma {:induction false} AtMost(input: string, text: string, pos: nat)
    requires StandsAt(input, text, pos)
    ensures pos + |text| <= |input|
  {
  }

  lemma {:induction false} LexShaped(input: string)
    requires Lexed(input).error == ""
    ensures Shaped(input, Lexed(input).tokens, 0)
  {
    LexicalReadings.LexExact(input);
    var ls :| Reads(ls, input);
    ReadingShaped(input, ls, 0, false);
  }

  /** The tokens of a line form a stream the parser reads to its end and no further. */
  lemma {:induction false} ShapedProper(input: string, ts: List<Token>, from: nat)
    requires Shaped(input, ts, from)
    ensures Grammar.Proper(Parser.Erase(ts))
    decreases ts
  {
    if ts.tail.Cons? {
      ShapedProper(input, ts.tail, ts.head.position + 1);
    }
  }

  lemma {:induction false} ShapedFrom(input: string, tokens: seq<Token>, i: nat, from: nat)
    requires i < |tokens| && Shaped(input, Listed(tokens, i), from)
    ensures tokens[|tokens| - 1] == Token(End, "", |input|)
    ensures forall j | i <= j < |tokens| :: from <= tokens[j].position
    ensures forall j | i <= j < |tokens| - 1 ::
              tokens[j].kind != End && (tokens[j].kind != Word ==> StandsAt(input, tokens[j].text, tokens[j].position))
    ensures forall j, k | i <= j < k < |tokens| :: tokens[j].position < tokens[k].position
    decreases |tokens| - i
  {
    if i < |tokens| - 1 {
      ShapedFrom(input, tokens, i + 1, tokens[i].position + 1);
    } else {
      assert Listed(tokens, i + 1) == Nil;
    }
  }

  /** A lexed line ends in its only end marker, positions increase strictly, and operators are slices of the line. */
  lemma {:induction false} TokensShaped(input: string, tokens: seq<Token>)
    requires Lexed(input) == Stream(Listed(tokens, 0), "")
    ensures tokens != [] && tokens[|tokens| - 1] == Token(End, "", |input|)
    ensures forall i | 0 <= i < |tokens| - 1 ::
              tokens[i].kind != End && (tokens[i].kind != Word ==> StandsAt(input, tokens[i].text, tokens[i].position))
    ensures forall i, j | 0 <= i < j < |tokens| :: tokens[i].position < tokens[j].position
  {
    LexShaped(input);
    ShapedFrom(input, tokens, 0, 0);
  }
}
