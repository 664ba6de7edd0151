/**
  The lexical grammar of a command line, stated without reference to the lexer's loop: a line is a sequence of
  blanks, operators and words, and a word is a sequence of bare characters, escapes and quoted runs.
  Every text of this grammar lexes to the tokens it denotes.
 */
module LexicalGrammar {
  import opened Syntax
  import opened Lexer

  /** Inside double quotes a backslash escapes five characters and stands for itself before any other. */
  datatype DoublePiece = Literal(c: char) | Escaped(c: char) | Kept(c: char)

  datatype Piece =
    | Bare(c: char)
    | Escape(c: char)
    | SingleQuoted(body: List<char>)
    | DoubleQuoted(parts: List<DoublePiece>)

  /** `one` marks the spellings `1>` and `1>>` of output redirection. */
  datatype Lexeme =
    | Blank(c: char)
    | Operator(kind: TokenType, one: bool)
    | WordOf(pieces: List<Piece>)

  // ---------- what each form looks like on the line, in front of `rest` ----------

  function PartsText(parts: List<DoublePiece>, rest: List<char>): List<char> {
    match parts
    case Nil => rest
    case Cons(Literal(c), tail) => Cons(c, PartsText(tail, rest))
    case Cons(Escaped(c), tail) => Cons('\\', Cons(c, PartsText(tail, rest)))
    case Cons(Kept(c), tail) => Cons('\\', Cons(c, PartsText(tail, rest)))
  }

  function PieceText(p: Piece, rest: List<char>): List<char> {
    match p
    case Bare(c) => Cons(c, rest)
    case Escape(c) => Cons('\\', Cons(c, rest))
    case SingleQuoted(body) => Cons('\'', Append(body, Cons('\'', rest)))
    case DoubleQuoted(parts) => Cons('"', PartsText(parts, Cons('"', rest)))
  }

  function PiecesText(ps: List<Piece>, rest: List<char>): List<char> {
    match ps
    case Nil => rest
    case Cons(p, tail) => PieceText(p, PiecesText(tail, rest))
  }

  function OperatorText(kind: TokenType, one: bool, rest: List<char>): List<char> {
    match kind
    case Pipe => Cons('|', rest)
    case AndIf => Cons('&', Cons('&', rest))
    case Background => Cons('&', rest)
    case OrIf => Cons('|', Cons('|', rest))
    case Semicolon => Cons(';', rest)
    case RedirectIn => Cons('<', rest)
    case RedirectOut => if one then Cons('1', Cons('>', rest)) else Cons('>', rest)
    case RedirectAppend => if one then Cons('1', Cons('>', Cons('>', rest))) else Cons('>', Cons('>', rest))
    case RedirectErr => Cons('2', Cons('>', rest))
    case RedirectErrAppend => Cons('2', Cons('>', Cons('>', rest)))
    case _ => rest
  }

  function Text(ls: List<Lexeme>, rest: List<char>): List<char> {
    match ls
    case Nil => rest
    case Cons(Blank(c), tail) => Cons(c, Text(tail, rest))
    case Cons(Operator(kind, one), tail) => OperatorText(kind, one, Text(tail, rest))
    case Cons(WordOf(pieces), tail) => PiecesText(pieces, Text(tail, rest))
  }

  // ---------- what each form denotes ----------

  function StringOf(body: List<char>): string {
    match body case Nil => "" case Cons(c, tail) => [c] + StringOf(tail)
  }

  function PartsValue(parts: List<DoublePiece>): string {
    match parts
    case Nil => ""
    case Cons(Literal(c), tail) => [c] + PartsValue(tail)
    case Cons(Escaped(c), tail) => [c] + PartsValue(tail)
    case Cons(Kept(c), tail) => ['\\', c] + PartsValue(tail)
  }

  function PieceValue(p: Piece): string {
    match p
    case Bare(c) => [c]
    case Escape(c) => [c]
    case SingleQuoted(body) => StringOf(body)
    case DoubleQuoted(parts) => PartsValue(parts)
  }

  function PiecesValue(ps: List<Piece>): string {
    match ps case Nil => "" case Cons(p, tail) => PieceValue(p) + PiecesValue(tail)
  }

  function Spelling(kind: TokenType, one: bool): string {
    match kind
    case Pipe => "|"
    case AndIf => "&&"
    case Background => "&"
    case OrIf => "||"
    case Semicolon => ";"
    case RedirectIn => "<"
    case RedirectOut => if one then "1>" else ">"
    case RedirectAppend => if one then "1>>" else ">>"
    case RedirectErr => "2>"
    case RedirectErrAppend => "2>>"
    case _ => ""
  }

  function PartsSize(parts: List<DoublePiece>): nat {
    match parts
    case Nil => 0
    case Cons(part, tail) => (if part.Literal? then 1 else 2) + PartsSize(tail)
  }

  function PieceSize(p: Piece): nat {
    match p
    case Bare(_) => 1
    case Escape(_) => 2
    case SingleQuoted(body) => 2 + Length(body)
    case DoubleQuoted(parts) => 2 + PartsSize(parts)
  }

  function PiecesSize(ps: List<Piece>): nat {
    match ps case Nil => 0 case Cons(p, tail) => PieceSize(p) + PiecesSize(tail)
  }

  /** The tokens a sequence of lexemes denotes when it starts at offset `pos`. */
  function TokensOf(ls: List<Lexeme>, pos: nat): List<Token> {
    match ls
    case Nil => Cons(Token(End, "", pos), Nil)
    case Cons(Blank(_), tail) => TokensOf(tail, pos + 1)
    case Cons(Operator(kind, one), tail) =>
      Cons(Token(kind, Spelling(kind, one), pos), TokensOf(tail, pos + |Spelling(kind, one)|))
    case Cons(WordOf(pieces), tail) =>
      Cons(Token(Word, PiecesValue(pieces), pos), TokensOf(tail, pos + PiecesSize(pieces)))
  }

  // ---------- which forms are well formed ----------

  predicate StartsWith(s: List<char>, c: char) {
    s.Cons? && s.head == c
  }

  predicate ValidBody(body: List<char>) {
    body.Cons? ==> body.head != '\'' && ValidBody(body.tail)
  }

  /** Space, and the five control characters from tab to carriage return. */
  predicate IsBlankChar(c: char) {
    c == ' ' || '\t' <= c <= '\r'
  }

  /** What a word can contain only quoted or escaped, besides blanks. */
  predicate IsSpecial(c: char) {
    c == '|' || c == '&' || c == ';' || c == '<' || c == '>' || c == '\\' || c == '\'' || c == '"'
  }

  /** What a backslash escapes inside double quotes. */
  predicate IsEscapable(c: char) {
    c == '"' || c == '\\' || c == '$' || c == '`' || c == '\n'
  }

  predicate ValidPart(part: DoublePiece) {
    match part
    case Literal(c) => c != '\\' && c != '"'
    case Escaped(c) => IsEscapable(c)
    case Kept(c) => !IsEscapable(c)
  }

  predicate ValidParts(parts: List<DoublePiece>) {
    parts.Cons? ==> ValidPart(parts.head) && ValidParts(parts.tail)
  }

  predicate ValidPiece(p: Piece) {
    match p
    case Bare(c) => !IsBlankChar(c) && !IsSpecial(c)
    case Escape(_) => true
    case SingleQuoted(body) => ValidBody(body)
    case DoubleQuoted(parts) => ValidParts(parts)
  }

  predicate ValidPieces(ps: List<Piece>) {
    ps.Cons? ==> ValidPiece(ps.head) && ValidPieces(ps.tail)
  }

  /** A word that is just `1` or `2`, directly before `>`, would read as a redirection. */
  predicate ReadsAsRedirection(ps: List<Piece>, rest: List<char>) {
    (ps == Cons(Bare('1'), Nil) || ps == Cons(Bare('2'), Nil)) && StartsWith(rest, '>')
  }

  /** An operator stands for itself when no longer one is spelled there and no digit of it joins a word before it. */
  predicate ValidOperator(kind: TokenType, one: bool, rest: List<char>, afterWord: bool) {
    && kind != Word && kind != End
    && (one ==> kind == RedirectOut || kind == RedirectAppend)
    && (afterWord ==> !one && kind != RedirectErr && kind != RedirectErrAppend)
    && (kind == Background ==> !StartsWith(rest, '&'))
    && (kind == Pipe ==> !StartsWith(rest, '|'))
    && (kind == RedirectOut || kind == RedirectErr ==> !StartsWith(rest, '>'))
  }

  /** Well-formedness, in front of `rest`, of lexemes that directly follow a word (`afterWord`) or do not. */
  predicate WellFormedBefore(ls: List<Lexeme>, afterWord: bool, rest: List<char>) {
    match ls
    case Nil => true
    case Cons(Blank(c), tail) =>
      IsBlankChar(c) && WellFormedBefore(tail, false, rest)
    case Cons(Operator(kind, one), tail) =>
      ValidOperator(kind, one, Text(tail, rest), afterWord) && WellFormedBefore(tail, false, rest)
    case Cons(WordOf(pieces), tail) =>
      && !afterWord
      && pieces.Cons? && ValidPieces(pieces)
      && !ReadsAsRedirection(pieces, Text(tail, rest))
      && WellFormedBefore(tail, true, rest)
  }

  predicate WellFormed(ls: List<Lexeme>, afterWord: bool) {
    WellFormedBefore(ls, afterWord, Nil)
  }

  /** `ls` is a reading of the line `input`. */
  ghost predicate Reads(ls: List<Lexeme>, input: string) {
    WellFormed(ls, false) && Text(ls, Nil) == Listed(input, 0)
  }

  // ---------- every well-formed line lexes to the tokens it denotes ----------

  lemma {:induction false} GrowTwice(w: Pending, pos: nat, a: string, b: string, later: nat)
    ensures Grow(Grow(w, pos, a), later, b) == Grow(w, pos, a + b)
  {
    if w.Building? {
      assert w.text + a + b == w.text + (a + b);
    }
  }

  lemma {:induction false} GrowNothing(w: Pending, pos: nat, later: nat, v: string)
    ensures Grow(Grow(w, pos, ""), later, v) == Grow(w, pos, v)
    ensures w.Building? ==> Grow(w, pos, "") == w
  {
    GrowTwice(w, pos, "", v, later);
    assert "" + v == v;
    if w.Building? {
      assert w.text + "" == w.text;
    }
  }

  lemma {:induction false} ScanBody(body: List<char>, rest: List<char>, pos: nat, w: Pending)
    requires ValidBody(body) && w.Building?
    ensures Scan(Append(body, Cons('\'', rest)), pos, w, Single) ==
            Scan(rest, pos + Length(body) + 1, Grow(w, pos, StringOf(body)), Plain)
  {
    match body
    case Nil => GrowNothing(w, pos, pos, "");
    case Cons(c, tail) =>
      ScanBody(tail, rest, pos + 1, Grow(w, pos, [c]));
      GrowTwice(w, pos, [c], StringOf(tail), pos + 1);
  }

  lemma {:induction false} ScanParts(parts: List<DoublePiece>, rest: List<char>, pos: nat, w: Pending)
    requires ValidParts(parts) && w.Building?
    ensures Scan(PartsText(parts, Cons('"', rest)), pos, w, Double) ==
            Scan(rest, pos + PartsSize(parts) + 1, Grow(w, pos, PartsValue(parts)), Plain)
  {
    match parts
    case Nil => GrowNothing(w, pos, pos, "");
    case Cons(Literal(c), tail) =>
      ScanParts(tail, rest, pos + 1, Grow(w, pos, [c]));
      GrowTwice(w, pos, [c], PartsValue(tail), pos + 1);
    case Cons(Escaped(c), tail) =>
      ScanParts(tail, rest, pos + 2, Grow(w, pos, [c]));
      GrowTwice(w, pos, [c], PartsValue(tail), pos + 2);
    case Cons(Kept(c), tail) =>
      ScanParts(tail, rest, pos + 2, Grow(w, pos, ['\\', c]));
      GrowTwice(w, pos, ['\\', c], PartsValue(tail), pos + 2);
  }

  lemma {:induction false} ScanPiece(p: Piece, rest: List<char>, pos: nat, w: Pending)
    requires ValidPiece(p)
    requires w.Idle? ==> !ReadsAsRedirection(Cons(p, Nil), rest)
    ensures Scan(PieceText(p, rest), pos, w, Plain) ==
            Scan(rest, pos + PieceSize(p), Grow(w, pos, PieceValue(p)), Plain)
  {
    match p
    case Bare(c) =>
    case Escape(c) =>
    case SingleQuoted(body) =>
      ScanBody(body, rest, pos + 1, Grow(w, pos, ""));
      GrowNothing(w, pos, pos + 1, StringOf(body));
    case DoubleQuoted(parts) =>
      ScanParts(parts, rest, pos + 1, Grow(w, pos, ""));
      GrowNothing(w, pos, pos + 1, PartsValue(parts));
  }

  lemma {:induction false} ScanPieces(ps: List<Piece>, rest: List<char>, pos: nat, w: Pending)
    requires ValidPieces(ps) && ps.Cons?
    requires w.Idle? ==> !ReadsAsRedirection(ps, rest)
    ensures Scan(PiecesText(ps, rest), pos, w, Plain) ==
            Scan(rest, pos + PiecesSize(ps), Grow(w, pos, PiecesValue(ps)), Plain)
  {
    hide Scan, PieceValue, PieceSize;
    var Cons(p, tail) := ps;
    ScanPiece(p, PiecesText(tail, rest), pos, w);
    if tail.Nil? {
      assert PieceValue(p) + "" == PieceValue(p);
    } else {
      ScanPieces(tail, rest, pos + PieceSize(p), Grow(w, pos, PieceValue(p)));
      GrowTwice(w, pos, PieceValue(p), PiecesValue(tail), pos + PieceSize(p));
    }
  }

  lemma {:induction false} OperatorRecognized(kind: TokenType, one: bool, rest: List<char>, pending: bool)
    requires ValidOperator(kind, one, rest, pending)
    ensures OperatorAt(OperatorText(kind, one, rest), pending) == Found(kind, Spelling(kind, one), rest)
    ensures var s := OperatorText(kind, one, rest); s.Cons? && !IsQuoting(s.head) && !IsSpace(s.head)
  {
  }

  lemma {:induction false} ScanOperator(kind: TokenType, one: bool, rest: List<char>, pos: nat, w: Pending)
    requires ValidOperator(kind, one, rest, w.Building?)
    ensures var Stream(tokens, error) := Scan(rest, pos + |Spelling(kind, one)|, Idle, Plain);
            Scan(OperatorText(kind, one, rest), pos, w, Plain) ==
            Stream(Flush(w, Cons(Token(kind, Spelling(kind, one), pos), tokens)), error)
  {
    OperatorRecognized(kind, one, rest, w.Building?);
  }

  /** A pending word is flushed by whatever well-formed lexemes follow it. */
  lemma {:induction false} Complete(ls: List<Lexeme>, pos: nat, w: Pending)
    requires WellFormed(ls, w.Building?)
    ensures Scan(Text(ls, Nil), pos, w, Plain) == Stream(Flush(w, TokensOf(ls, pos)), "")
  {
    hide Scan;
    match ls
    case Nil =>
      ScanEnd(pos, w, Plain);
    case Cons(Blank(c), tail) =>
      ScanBlank(c, Text(tail, Nil), pos, w);
      Complete(tail, pos + 1, Idle);
    case Cons(Operator(kind, one), tail) =>
      ScanOperator(kind, one, Text(tail, Nil), pos, w);
      Complete(tail, pos + |Spelling(kind, one)|, Idle);
    case Cons(WordOf(pieces), tail) =>
      ScanPieces(pieces, Text(tail, Nil), pos, w);
      Complete(tail, pos + PiecesSize(pieces), Building(PiecesValue(pieces), pos));
  }
}
