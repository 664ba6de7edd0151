/**
  Every line is a text of the lexical grammar, or such a text followed by a fault: an escape of nothing or a quote that
  is never closed. `LexExact` and `LexFaultExact` show what the lexer returns for each kind.
 */
module LexicalReadings {
  import opened Syntax
  import opened Lexer
  import opened LexicalGrammar

  // ---------- faults ----------

  datatype Fault =
    | DanglingEscape
    | OpenSingle(body: List<char>)
    | OpenDouble(parts: List<DoublePiece>)
    | OpenDoubleEscape(parts: List<DoublePiece>)

  predicate ValidFault(f: Fault) {
    match f
    case DanglingEscape => true
    case OpenSingle(body) => ValidBody(body)
    case OpenDouble(parts) => ValidParts(parts)
    case OpenDoubleEscape(parts) => ValidParts(parts)
  }

  function FaultText(f: Fault): List<char> {
    match f
    case DanglingEscape => Cons('\\', Nil)
    case OpenSingle(body) => Cons('\'', body)
    case OpenDouble(parts) => Cons('"', PartsText(parts, Nil))
    case OpenDoubleEscape(parts) => Cons('"', PartsText(parts, Cons('\\', Nil)))
  }

  function Message(f: Fault): string {
    match f
    case DanglingEscape => "syntax error: trailing escape"
    case OpenSingle(_) => "syntax error: unmatched single quote"
    case OpenDouble(_) => "syntax error: unmatched double quote"
    case OpenDoubleEscape(_) => "syntax error: trailing escape"
  }

  /** The tokens read before a fault that follows `ls`: a word the fault runs into is not among them. */
  function TokensBefore(ls: List<Lexeme>, pos: nat): List<Token> {
    match ls
    case Nil => Nil
    case Cons(Blank(_), tail) => TokensBefore(tail, pos + 1)
    case Cons(Operator(kind, one), tail) =>
      Cons(Token(kind, Spelling(kind, one), pos), TokensBefore(tail, pos + |Spelling(kind, one)|))
    case Cons(WordOf(pieces), tail) =>
      if tail.Nil? then Nil
      else Cons(Token(Word, PiecesValue(pieces), pos), TokensBefore(tail, pos + PiecesSize(pieces)))
  }

  /** `input` is the text of `ls` and then of the fault `f`. */
  ghost predicate Misreads(ls: List<Lexeme>, f: Fault, input: string) {
    ValidFault(f) && WellFormedBefore(ls, false, FaultText(f)) && Text(ls, FaultText(f)) == Listed(input, 0)
  }

  lemma {:induction false} ScanOpenBody(body: List<char>, pos: nat, w: Pending)
    requires ValidBody(body)
    ensures Scan(body, pos, w, Single) == Stream(Nil, UNMATCHED_SINGLE)
  {
    if body.Cons? {
      ScanOpenBody(body.tail, pos + 1, Grow(w, pos, [body.head]));
    }
  }

  lemma {:induction false} ScanOpenParts(parts: List<DoublePiece>, escape: bool, pos: nat, w: Pending)
    requires ValidParts(parts)
    ensures Scan(PartsText(parts, if escape then Cons('\\', Nil) else Nil), pos, w, Double) ==
            Stream(Nil, if escape then TRAILING_ESCAPE else UNMATCHED_DOUBLE)
  {
    match parts
    case Nil =>
    case Cons(Literal(c), tail) => ScanOpenParts(tail, escape, pos + 1, Grow(w, pos, [c]));
    case Cons(Escaped(c), tail) => ScanOpenParts(tail, escape, pos + 2, Grow(w, pos, [c]));
    case Cons(Kept(c), tail) => ScanOpenParts(tail, escape, pos + 2, Grow(w, pos, ['\\', c]));
  }

  lemma {:induction false} ScanFault(f: Fault, pos: nat, w: Pending)
    requires ValidFault(f)
    ensures Scan(FaultText(f), pos, w, Plain) == Stream(Nil, Message(f))
  {
    match f
    case DanglingEscape =>
    case OpenSingle(body) => ScanOpenBody(body, pos + 1, Grow(w, pos, ""));
    case OpenDouble(parts) => ScanOpenParts(parts, false, pos + 1, Grow(w, pos, ""));
    case OpenDoubleEscape(parts) => ScanOpenParts(parts, true, pos + 1, Grow(w, pos, ""));
  }

  /** Lexemes and then a fault: the tokens before it, and its message. */
  lemma {:induction false} CompleteFault(ls: List<Lexeme>, f: Fault, pos: nat, w: Pending)
    requires ValidFault(f) && WellFormedBefore(ls, w.Building?, FaultText(f))
    ensures Scan(Text(ls, FaultText(f)), pos, w, Plain) ==
            Stream(if ls.Nil? then Nil else Flush(w, TokensBefore(ls, pos)), Message(f))
  {
    hide Scan, FaultText, Message, ValidFault, ValidPieces, ValidOperator, OperatorText, PiecesText, Spelling;
    match ls
    case Nil => ScanFault(f, pos, w);
    case Cons(Blank(c), tail) =>
      ScanBlank(c, Text(tail, FaultText(f)), pos, w);
      CompleteFault(tail, f, pos + 1, Idle);
    case Cons(Operator(kind, one), tail) =>
      ScanOperator(kind, one, Text(tail, FaultText(f)), pos, w);
      CompleteFault(tail, f, pos + |Spelling(kind, one)|, Idle);
    case Cons(WordOf(pieces), tail) =>
      ScanPieces(pieces, Text(tail, FaultText(f)), pos, w);
      CompleteFault(tail, f, pos + PiecesSize(pieces), Building(PiecesValue(pieces), pos));
  }

  // ---------- every line is of one of the two kinds ----------

  /** Pieces that open a word in front of `ls`, as a sequence of lexemes. */
  function Joined(ps: List<Piece>, ls: List<Lexeme>): List<Lexeme> {
    if ps.Nil? then ls else Cons(WordOf(ps), ls)
  }

  /** What ends a line: nothing or a fault. */
  function EndText(fault: Option<Fault>): List<char> {
    match fault case None => Nil case Some(f) => FaultText(f)
  }

  /** A reading of `s`, after a word or not: `ps` continues (or opens) the word, `ls` follows it, and then the end. */
  ghost predicate Continues(
    s: List<char>, afterWord: bool, ps: List<Piece>, ls: List<Lexeme>, fault: Option<Fault>)
  {
    && (fault.Some? ==> ValidFault(fault.value))
    && s == PiecesText(ps, Text(ls, EndText(fault)))
    && ValidPieces(ps) && WellFormedBefore(ls, afterWord || ps.Cons?, EndText(fault))
    && (!afterWord ==> !ReadsAsRedirection(ps, Text(ls, EndText(fault))))
  }

  lemma {:induction false} OperatorSpelled(s: List<char>, pending: bool) returns (one: bool)
    requires OperatorAt(s, pending).Found?
    ensures var Found(kind, text, rest) := OperatorAt(s, pending);
            ValidOperator(kind, one, rest, pending) && s == OperatorText(kind, one, rest) && text == Spelling(kind, one)
  {
    one := s.head == '1';
  }

  lemma {:induction false} SoundBody(s: List<char>) returns (closed: bool, body: List<char>, rest: List<char>)
    ensures ValidBody(body)
    ensures if closed then s == Append(body, Cons('\'', rest)) && rest < s else s == body
  {
    if s.Nil? {
      closed, body, rest := false, Nil, Nil;
    } else if s.head == '\'' {
      closed, body, rest := true, Nil, s.tail;
    } else {
      closed, body, rest := SoundBody(s.tail);
      body := Cons(s.head, body);
    }
  }

  /** How a double-quoted run ends: closed, with the line, or with a backslash that ends the line. */
  datatype Ending = Closed(rest: List<char>) | AtLineEnd | AtEscape

  lemma {:induction false} SoundParts(s: List<char>) returns (parts: List<DoublePiece>, ending: Ending)
    ensures ValidParts(parts)
    ensures match ending
            case Closed(rest) => s == PartsText(parts, Cons('"', rest)) && rest < s
            case AtLineEnd => s == PartsText(parts, Nil)
            case AtEscape => s == PartsText(parts, Cons('\\', Nil))
  {
    if s.Nil? {
      parts, ending := Nil, AtLineEnd;
    } else if s.head == '"' {
      parts, ending := Nil, Closed(s.tail);
    } else if s.head != '\\' {
      parts, ending := SoundParts(s.tail);
      parts := Cons(Literal(s.head), parts);
    } else if s.tail.Nil? {
      parts, ending := Nil, AtEscape;
    } else {
      parts, ending := SoundParts(s.tail.tail);
      parts := Cons(if IsEscapable(s.tail.head) then Escaped(s.tail.head) else Kept(s.tail.head), parts);
    }
  }

  lemma {:induction false} ContinueEnd(afterWord: bool, fault: Option<Fault>)
    requires fault.Some? ==> ValidFault(fault.value)
    ensures Continues(EndText(fault), afterWord, Nil, Nil, fault)
  {
  }

  lemma {:induction false} ContinuePiece(
    p: Piece, t: List<char>, afterWord: bool, ps: List<Piece>, ls: List<Lexeme>, fault: Option<Fault>)
    requires ValidPiece(p) && Continues(t, true, ps, ls, fault)
    requires !afterWord ==> !ReadsAsRedirection(Cons(p, Nil), t)
    ensures Continues(PieceText(p, t), afterWord, Cons(p, ps), ls, fault)
  {
  }

  lemma {:induction false} ContinueLexeme(
    l: Lexeme, t: List<char>, afterWord: bool, ps: List<Piece>, ls: List<Lexeme>, fault: Option<Fault>)
    requires Continues(t, false, ps, ls, fault)
    requires match l
             case Blank(c) => IsBlankChar(c)
             case Operator(kind, one) => ValidOperator(kind, one, t, afterWord)
             case WordOf(_) => false
    ensures var text := if l.Blank? then Cons(l.c, t) else OperatorText(l.kind, l.one, t);
            Continues(text, afterWord, Nil, Cons(l, Joined(ps, ls)), fault)
  {
  }

  /** A character that starts no operator, quote or blank is part of a word. */
  lemma {:induction false} BareChar(c: char, t: List<char>, afterWord: bool)
    requires OperatorAt(Cons(c, t), afterWord).NotFound? && !IsBlankChar(c) && !IsQuoting(c)
    ensures ValidPiece(Bare(c)) && (!afterWord ==> !ReadsAsRedirection(Cons(Bare(c), Nil), t))
  {
  }

  /** Every text has a reading, with a fault at its end or without. */
  lemma {:induction false} Sound(s: List<char>, afterWord: bool)
    returns (ps: List<Piece>, ls: List<Lexeme>, fault: Option<Fault>)
    ensures Continues(s, afterWord, ps, ls, fault)
    decreases s
  {
    hide Continues, OperatorText, ValidOperator, OperatorAt;
    if s.Nil? {
      ContinueEnd(afterWord, None);
      return Nil, Nil, None;
    }
    var Cons(c, t) := s;
    if c == '\\' {
      if t.Nil? {
        ContinueEnd(afterWord, Some(DanglingEscape));
        return Nil, Nil, Some(DanglingEscape);
      }
      ps, ls, fault := Sound(t.tail, true);
      ContinuePiece(Escape(t.head), t.tail, afterWord, ps, ls, fault);
      ps := Cons(Escape(t.head), ps);
    } else if c == '\'' {
      var closed, body, rest := SoundBody(t);
      if !closed {
        ContinueEnd(afterWord, Some(OpenSingle(body)));
        return Nil, Nil, Some(OpenSingle(body));
      }
      ps, ls, fault := Sound(rest, true);
      ContinuePiece(SingleQuoted(body), rest, afterWord, ps, ls, fault);
      ps := Cons(SingleQuoted(body), ps);
    } else if c == '"' {
      var parts, ending := SoundParts(t);
      if !ending.Closed? {
        fault := Some(if ending == AtLineEnd then OpenDouble(parts) else OpenDoubleEscape(parts));
        ContinueEnd(afterWord, fault);
        return Nil, Nil, fault;
      }
      ps, ls, fault := Sound(ending.rest, true);
      ContinuePiece(DoubleQuoted(parts), ending.rest, afterWord, ps, ls, fault);
      ps := Cons(DoubleQuoted(parts), ps);
    } else if IsBlankChar(c) {
      ps, ls, fault := Sound(t, false);
      ContinueLexeme(Blank(c), t, afterWord, ps, ls, fault);
      ps, ls := Nil, Cons(Blank(c), Joined(ps, ls));
    } else if OperatorAt(s, afterWord).Found? {
      var Found(kind, text, rest) := OperatorAt(s, afterWord);
      var one := OperatorSpelled(s, afterWord);
      ps, ls, fault := Sound(rest, false);
      ContinueLexeme(Operator(kind, one), rest, afterWord, ps, ls, fault);
      ps, ls := Nil, Cons(Operator(kind, one), Joined(ps, ls));
    } else {
      BareChar(c, t, afterWord);
      ps, ls, fault := Sound(t, true);
      ContinuePiece(Bare(c), t, afterWord, ps, ls, fault);
      ps := Cons(Bare(c), ps);
    }
  }

  /** Every line reads or misreads. */
  lemma {:induction false} EveryLine(input: string)
    ensures (exists ls :: Reads(ls, input)) || (exists ls, f :: Misreads(ls, f, input))
  {
    var ps, ls, fault := Sound(Listed(input, 0), false);
    if fault.None? {
      assert Reads(Joined(ps, ls), input);
    } else {
      assert Misreads(Joined(ps, ls), fault.value, input);
    }
  }

  /** The lexer accepts a line exactly when it has a reading, and then returns the tokens every reading denotes. */
  lemma {:induction false} LexExact(input: string)
    ensures Lexed(input).error == "" <==> exists ls :: Reads(ls, input)
    ensures forall ls | Reads(ls, input) :: Lexed(input) == Stream(TokensOf(ls, 0), "")
  {
    forall ls | Reads(ls, input)
      ensures Lexed(input) == Stream(TokensOf(ls, 0), "")
    {
      Complete(ls, 0, Idle);
    }
    forall ls, f | Misreads(ls, f, input)
      ensures Lexed(input).error == Message(f)
    {
      CompleteFault(ls, f, 0, Idle);
    }
    EveryLine(input);
  }

  /** It refuses a line exactly when that ends in a fault, and returns its message and the tokens before it. */
  lemma {:induction false} LexFaultExact(input: string)
    ensures Lexed(input).error != "" <==> exists ls, f :: Misreads(ls, f, input)
    ensures forall ls, f | Misreads(ls, f, input) :: Lexed(input) == Stream(TokensBefore(ls, 0), Message(f))
  {
    forall ls, f | Misreads(ls, f, input)
      ensures Lexed(input) == Stream(TokensBefore(ls, 0), Message(f))
    {
      CompleteFault(ls, f, 0, Idle);
    }
    EveryLine(input);
    LexExact(input);
  }
}
