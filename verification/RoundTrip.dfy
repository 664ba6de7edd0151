/** Reading back what `Display` prints: which words survive, and that printed pipelines parse to themselves. */
module RoundTrip {
  import opened Syntax
  import opened Lexer
  import opened LexicalGrammar
  import opened Display
  import P = Parser
  import G = Grammar
  import L = LexerProperties
  import CommandLine

  /** The words the printing preserves: those it quotes, and those with no backslash or quote in them. */
  predicate Safe(v: string) {
    NeedsQuotes(v) || !HasQuoting(v)
  }

  // ---------- the printed form of a word, as the pieces of the lexical grammar ----------

  function QuotedPieces(v: List<char>): (ps: List<Piece>)
    ensures ps.Cons? && ps.head.SingleQuoted?
  {
    match v
    case Nil => Cons(SingleQuoted(Nil), Nil)
    case Cons(c, tail) =>
      var ps := QuotedPieces(tail);
      if c == '\'' then Cons(SingleQuoted(Nil), Cons(Escape('\''), ps))
      else Cons(SingleQuoted(Cons(c, ps.head.body)), ps.tail)
  }

  function BarePieces(v: List<char>): List<Piece> {
    match v case Nil => Nil case Cons(c, tail) => Cons(Bare(c), BarePieces(tail))
  }

  function WordPieces(v: string): List<Piece> {
    if v == "" || NeedsQuotes(v) then QuotedPieces(Listed(v, 0)) else BarePieces(Listed(v, 0))
  }

  lemma {:induction false} QuotedRead(v: List<char>, rest: List<char>)
    ensures PiecesText(QuotedPieces(v), rest) == Cons('\'', QuotedText(v, rest))
    ensures ValidPieces(QuotedPieces(v)) && PiecesValue(QuotedPieces(v)) == StringOf(v)
  {
    if v.Cons? {
      var Cons(c, tail) := v;
      var ps := QuotedPieces(tail);
      QuotedRead(tail, rest);
      if c == '\'' {
        var qs := Cons(Escape('\''), ps);
        assert PiecesText(qs, rest) == Cons('\\', Cons('\'', PiecesText(ps, rest)));
        assert PiecesText(QuotedPieces(v), rest) == Cons('\'', Cons('\'', PiecesText(qs, rest)));
        assert PiecesValue(qs) == "'" + PiecesValue(ps);
        assert PiecesValue(QuotedPieces(v)) == "" + PiecesValue(qs) == PiecesValue(qs);
        assert ValidPieces(qs);
      } else {
        var body, after := StringOf(ps.head.body), PiecesValue(ps.tail);
        assert StringOf(Cons(c, ps.head.body)) + after == [c] + (body + after);
      }
    }
  }

  /** A printed word that the next character does not run into. */
  predicate Clear(v: List<char>) {
    v.Cons? ==> ValidPiece(Bare(v.head)) && Clear(v.tail)
  }

  lemma {:induction false} BareRead(v: List<char>, rest: List<char>)
    requires Clear(v)
    ensures PiecesText(BarePieces(v), rest) == Append(v, rest)
    ensures ValidPieces(BarePieces(v)) && PiecesValue(BarePieces(v)) == StringOf(v)
  {
    if v.Cons? {
      BareRead(v.tail, rest);
    }
  }

  lemma {:induction false} ClearWord(v: string, i: nat)
    requires i <= |v| && !NeedsQuotes(v) && !HasQuoting(v)
    ensures Clear(Listed(v, i))
    decreases |v| - i
  {
    if i < |v| {
      assert !IsTrigger(v[i]) && !IsQuoting(v[i]);
      ClearWord(v, i + 1);
    }
  }

  lemma {:induction false} WordRead(v: string, rest: List<char>)
    requires Safe(v)
    ensures WordPieces(v).Cons? && ValidPieces(WordPieces(v)) && PiecesValue(WordPieces(v)) == v
    ensures PiecesText(WordPieces(v), rest) == WordText(v, rest)
  {
    QuotedRead(Listed(v, 0), rest);
    StringOfListed(v, 0);
    assert v[0..] == v;
    if !NeedsQuotes(v) {
      ClearWord(v, 0);
      BareRead(Listed(v, 0), rest);
    }
  }

  /** Text that may follow a printed word: nothing, or a blank. */
  predicate Follows(s: List<char>) {
    s.Nil? || s.head == ' '
  }

  lemma {:induction false} SafeScan(v: string, rest: List<char>)
    requires Safe(v) && Follows(rest)
    ensures var r := Scan(rest, PiecesSize(WordPieces(v)), Idle, Plain);
            Scan(WordText(v, rest), 0, Idle, Plain) == Stream(Cons(Token(Word, v, 0), r.tokens), r.error)
  {
    hide Scan, WordText, WordPieces;
    WordRead(v, rest);
    ScanPieces(WordPieces(v), rest, 0, Idle);
    var n := PiecesSize(WordPieces(v));
    if rest.Nil? {
      ScanEnd(n, Building(v, 0), Plain);
      ScanEnd(n, Idle, Plain);
    } else {
      ScanBlank(' ', rest.tail, n, Building(v, 0));
      ScanBlank(' ', rest.tail, n, Idle);
    }
  }

  // ---------- quoting is exact ----------

  predicate QuotingIn(s: List<char>) {
    s.Cons? && (IsQuoting(s.head) || QuotingIn(s.tail))
  }

  predicate NoTrigger(s: List<char>) {
    s.Cons? ==> !IsTrigger(s.head) && NoTrigger(s.tail)
  }

  /** How much of the pending word has been collected. */
  function Collected(w: Pending): nat {
    match w case Idle => 0 case Building(text, _) => |text|
  }

  /** Text without triggers lexes to one word, which loses at least every quote that opens or closes in it. */
  lemma {:induction false} ScanShrinks(s: List<char>, pos: nat, w: Pending, quote: Quote)
    requires NoTrigger(s) && Scan(s, pos, w, quote).error == ""
    requires w.Building? || s.Cons?
    ensures var ts := Scan(s, pos, w, quote).tokens;
            && ts.Cons? && ts.head.kind == Word && ts.tail == Cons(Token(End, "", pos + Length(s)), Nil)
            && |ts.head.text| + (if quote != Plain || QuotingIn(s) then 1 else 0) <= Collected(w) + Length(s)
    decreases s
  {
    hide Scan, OperatorAt;
    if s.Nil? {
      ScanEnd(pos, w, quote);
      return;
    }
    var Cons(c, t) := s;
    if c == '\\' && quote != Single {
      ScanEscape(t, pos, w, quote);
      ScanShrinks(t.tail, pos + 2, Grow(w, pos, Unescape(t.head, quote)), quote);
    } else if Toggles(c, quote) {
      ScanQuote(c, t, pos, w, quote);
      ScanShrinks(t, pos + 1, Grow(w, pos, ""), Toggled(c, quote));
    } else if quote != Plain {
      ScanQuoted(c, t, pos, w, quote);
      ScanShrinks(t, pos + 1, Grow(w, pos, [c]), quote);
    } else {
      ScanPlain(c, t, pos, w);
      NoOperator(s, w.Building?);
      ScanShrinks(t, pos + 1, Grow(w, pos, [c]), Plain);
    }
  }

  lemma {:induction false} NoOperator(s: List<char>, pending: bool)
    requires s.Cons? && NoTrigger(s)
    ensures OperatorAt(s, pending).NotFound?
  {
  }

  lemma {:induction false} WordChars(v: string, i: nat)
    requires i <= |v|
    ensures (exists j :: i <= j < |v| && IsQuoting(v[j])) <==> QuotingIn(Listed(v, i))
    ensures (exists j :: i <= j < |v| && IsTrigger(v[j])) <==> !NoTrigger(Listed(v, i))
    ensures Length(Listed(v, i)) == |v| - i
    decreases |v| - i
  {
    if i < |v| {
      WordChars(v, i + 1);
    }
  }

  /** A printed word reads back as itself exactly when it is safe; otherwise reading fails or gives a shorter word. */
  lemma {:induction false} SafeChars(v: string)
    ensures Safe(v) <==>
            || (exists c | c in v :: c == ' ' || '\t' <= c <= '\r' || c in {'|', '&', ';', '<', '>'})
            || forall c | c in v :: c !in {'\\', '\'', '"'}
  {
    assert NeedsQuotes(v) <==> exists c | c in v :: IsTrigger(c);
    assert HasQuoting(v) <==> exists c | c in v :: IsQuoting(c);
  }

  lemma {:induction false} QuoteExact(v: string)
    ensures var text := StringOf(WordText(v, Nil));
            var itself := Cons(Token(Word, v, 0), Cons(Token(End, "", |text|), Nil));
            && (Safe(v) <==> Lexed(text) == Stream(itself, ""))
            && (!Safe(v) && Lexed(text).error == "" ==>
                  var ts := Lexed(text).tokens;
                  ts.Cons? && ts.head.kind == Word && |ts.head.text| < |v| && ts.tail == itself.tail)
    ensures Safe(v) <==>
            || (exists c | c in v :: c == ' ' || '\t' <= c <= '\r' || c in {'|', '&', ';', '<', '>'})
            || forall c | c in v :: c !in {'\\', '\'', '"'}
  {
    hide Scan;
    SafeChars(v);
    var text := StringOf(WordText(v, Nil));
    ListedStringOf(WordText(v, Nil));
    WordChars(v, 0);
    if Safe(v) {
      var n := PiecesSize(WordPieces(v));
      SafeScan(v, Nil);
      ScanEnd(n, Idle, Plain);
      WordRead(v, Nil);
      SizeOfPieces(WordPieces(v), Nil);
      LengthStringOf(WordText(v, Nil));
    } else {
      AppendNil(Listed(v, 0));
      StringOfListed(v, 0);
      assert v[0..] == v == text;
      if Lexed(text).error == "" {
        ScanShrinks(Listed(v, 0), 0, Idle, Plain);
      }
    }
  }

  lemma {:induction false} LengthStringOf(l: List<char>)
    ensures |StringOf(l)| == Length(l)
  {
    if l.Cons? {
      LengthStringOf(l.tail);
    }
  }

  lemma {:induction false} SizeOfBody(body: List<char>, rest: List<char>)
    ensures Length(Append(body, rest)) == Length(body) + Length(rest)
  {
    if body.Cons? {
      SizeOfBody(body.tail, rest);
    }
  }

  lemma {:induction false} SizeOfParts(parts: List<DoublePiece>, rest: List<char>)
    ensures Length(PartsText(parts, rest)) == PartsSize(parts) + Length(rest)
  {
    if parts.Cons? {
      SizeOfParts(parts.tail, rest);
    }
  }

  lemma {:induction false} SizeOfPieces(ps: List<Piece>, rest: List<char>)
    ensures Length(PiecesText(ps, rest)) == PiecesSize(ps) + Length(rest)
  {
    if ps.Cons? {
      var after := PiecesText(ps.tail, rest);
      SizeOfPieces(ps.tail, rest);
      match ps.head
      case Bare(_) =>
      case Escape(_) =>
      case SingleQuoted(body) => SizeOfBody(body, Cons('\'', after));
      case DoubleQuoted(parts) => SizeOfParts(parts, Cons('"', after));
    }
  }

  // ---------- which printed pipelines read back as printed ----------

  /** A pending word ends up at the front of the next word token. */
  lemma {:induction false} PendingKept(s: List<char>, pos: nat, w: Pending, quote: Quote)
    requires w.Building? && Scan(s, pos, w, quote).error == ""
    ensures var ts := Scan(s, pos, w, quote).tokens; ts.Cons? && ts.head.kind == Word && w.text <= ts.head.text
    decreases s
  {
    hide Scan, OperatorAt;
    if s.Nil? {
      ScanEnd(pos, w, quote);
      return;
    }
    var Cons(c, t) := s;
    if c == '\\' && quote != Single {
      ScanEscape(t, pos, w, quote);
      PendingKept(t.tail, pos + 2, Grow(w, pos, Unescape(t.head, quote)), quote);
    } else if Toggles(c, quote) {
      ScanQuote(c, t, pos, w, quote);
      PendingKept(t, pos + 1, Grow(w, pos, ""), Toggled(c, quote));
    } else if quote != Plain {
      ScanQuoted(c, t, pos, w, quote);
      PendingKept(t, pos + 1, Grow(w, pos, [c]), quote);
    } else if IsSpace(c) {
      ScanBlank(c, t, pos, w);
    } else {
      ScanPlain(c, t, pos, w);
      if OperatorAt(s, true).NotFound? {
        PendingKept(t, pos + 1, Grow(w, pos, [c]), Plain);
      }
    }
  }

  /** A quote or escape left open at the end of a word swallows the blank after it. */
  lemma {:induction false} BlankSwallowed(rest: List<char>, pos: nat, w: Pending, quote: Quote)
    requires Follows(rest) && quote != Plain && w.Building? && Scan(rest, pos, w, quote).error == ""
    ensures var ts := Scan(rest, pos, w, quote).tokens; ts.Cons? && ts.head.kind == Word && NeedsQuotes(ts.head.text)
  {
    hide Scan;
    if rest.Nil? {
      ScanEnd(pos, w, quote);
    } else {
      var w' := Grow(w, pos, " ");
      ScanQuoted(' ', rest.tail, pos, w, quote);
      PendingKept(rest.tail, pos + 1, w', quote);
      assert IsTrigger(Scan(rest.tail, pos + 1, w', quote).tokens.head.text[|w.text|]);
    }
  }

  /** Unquoted text without triggers yields one word that is too short, or holds a blank it should not. */
  lemma {:induction false} ScanDistorts(s: List<char>, rest: List<char>, pos: nat, w: Pending, quote: Quote)
    requires NoTrigger(s) && Follows(rest) && (w.Building? || s.Cons?) && (w.Idle? ==> quote == Plain)
    requires Scan(Append(s, rest), pos, w, quote).error == ""
    ensures var ts := Scan(Append(s, rest), pos, w, quote).tokens;
            && ts.Cons? && ts.head.kind == Word
            && (NeedsQuotes(ts.head.text) ||
                |ts.head.text| + (if quote != Plain || QuotingIn(s) then 1 else 0) <= Collected(w) + Length(s))
    decreases s
  {
    hide Scan, OperatorAt, NeedsQuotes;
    if s.Nil? {
      if quote != Plain {
        BlankSwallowed(rest, pos, w, quote);
      } else if rest.Nil? {
        ScanEnd(pos, w, quote);
      } else {
        ScanBlank(' ', rest.tail, pos, w);
      }
      return;
    }
    var Cons(c, t) := s;
    var t' := Append(t, rest);
    if c == '\\' && quote != Single {
      ScanEscape(t', pos, w, quote);
      if t.Nil? {
        EscapedBlank(rest, pos, w, quote);
      } else {
        ScanDistorts(t.tail, rest, pos + 2, Grow(w, pos, Unescape(t.head, quote)), quote);
      }
    } else if Toggles(c, quote) {
      ScanQuote(c, t', pos, w, quote);
      ScanDistorts(t, rest, pos + 1, Grow(w, pos, ""), Toggled(c, quote));
    } else if quote != Plain {
      ScanQuoted(c, t', pos, w, quote);
      ScanDistorts(t, rest, pos + 1, Grow(w, pos, [c]), quote);
    } else {
      ScanPlain(c, t', pos, w);
      NoOperatorBefore(s, rest, w.Building?);
      ScanDistorts(t, rest, pos + 1, Grow(w, pos, [c]), Plain);
    }
  }

  lemma {:induction false} EscapedBlank(rest: List<char>, pos: nat, w: Pending, quote: Quote)
    requires Follows(rest) && quote != Single && Scan(Cons('\\', rest), pos, w, quote).error == ""
    ensures var ts := Scan(Cons('\\', rest), pos, w, quote).tokens;
            ts.Cons? && ts.head.kind == Word && NeedsQuotes(ts.head.text)
  {
    hide Scan;
    ScanEscape(rest, pos, w, quote);
    if rest.Cons? {
      var text := Unescape(' ', quote);
      var w' := Grow(w, pos, text);
      PendingKept(rest.tail, pos + 2, w', quote);
      assert IsTrigger(w'.text[|w'.text| - 1]);
      assert IsTrigger(Scan(rest.tail, pos + 2, w', quote).tokens.head.text[|w'.text| - 1]);
    }
  }

  lemma {:induction false} NoOperatorBefore(s: List<char>, rest: List<char>, pending: bool)
    requires s.Cons? && NoTrigger(s) && Follows(rest)
    ensures OperatorAt(Append(s, rest), pending).NotFound?
  {
    assert s.tail.Cons? ==> !IsTrigger(s.tail.head);
  }

  /** Lexing `s` succeeds with exactly `symbols`. */
  ghost predicate SpellsBack(s: List<char>, symbols: List<P.Symbol>) {
    Scan(s, 0, Idle, Plain).error == "" && P.Erase(Scan(s, 0, Idle, Plain).tokens) == symbols
  }

  lemma {:induction false} EraseShifted(ts: List<Token>, d: nat)
    ensures P.Erase(L.Shift(ts, d)) == P.Erase(ts)
  {
    if ts.Cons? {
      EraseShifted(ts.tail, d);
    }
  }

  lemma {:induction false} SpellsBackAnywhere(s: List<char>, pos: nat, symbols: List<P.Symbol>)
    ensures SpellsBack(s, symbols) <==>
            Scan(s, pos, Idle, Plain).error == "" && P.Erase(Scan(s, pos, Idle, Plain).tokens) == symbols
  {
    hide Scan;
    L.ScanShifted(s, 0, Idle, Plain, pos);
    EraseShifted(Scan(s, 0, Idle, Plain).tokens, pos);
  }

  lemma {:induction false} BlankExact(s: List<char>, symbols: List<P.Symbol>)
    ensures SpellsBack(Cons(' ', s), symbols) <==> SpellsBack(s, symbols)
  {
    hide Scan;
    ScanBlank(' ', s, 0, Idle);
    SpellsBackAnywhere(s, 1, symbols);
  }

  lemma {:induction false} OperatorExact(kind: TokenType, s: List<char>, symbols: List<P.Symbol>)
    requires kind != Word && kind != End
    ensures SpellsBack(OperatorText(kind, false, Cons(' ', s)), Cons(P.Symbol(kind, ""), symbols)) <==>
            SpellsBack(s, symbols)
  {
    hide Scan, OperatorText;
    var n := |Spelling(kind, false)|;
    ScanOperator(kind, false, Cons(' ', s), 0, Idle);
    SpellsBackAnywhere(Cons(' ', s), n, symbols);
    BlankExact(s, symbols);
  }

  lemma {:induction false} UnsafeScan(v: string, rest: List<char>, symbols: List<P.Symbol>)
    requires !Safe(v) && Follows(rest)
    ensures !SpellsBack(WordText(v, rest), Cons(P.Symbol(Word, v), symbols))
  {
    hide Scan;
    WordChars(v, 0);
    if Scan(WordText(v, rest), 0, Idle, Plain).error == "" {
      ScanDistorts(Listed(v, 0), rest, 0, Idle, Plain);
    }
  }

  lemma {:induction false} WordExact(v: string, rest: List<char>, symbols: List<P.Symbol>)
    requires Follows(rest)
    ensures SpellsBack(WordText(v, rest), Cons(P.Symbol(Word, v), symbols)) <==> Safe(v) && SpellsBack(rest, symbols)
  {
    hide Scan, WordText, WordPieces, Safe;
    if Safe(v) {
      SafeScan(v, rest);
      SpellsBackAnywhere(rest, PiecesSize(WordPieces(v)), symbols);
    } else {
      UnsafeScan(v, rest, symbols);
    }
  }

  lemma {:induction false} RedirectExact(kind: TokenType, file: string, rest: List<char>, symbols: List<P.Symbol>)
    requires IsRedirection(kind) && Follows(rest)
    ensures SpellsBack(Cons(' ', OperatorText(kind, false, Cons(' ', WordText(file, rest)))),
                       Cons(P.Symbol(kind, ""), Cons(P.Symbol(Word, file), symbols)))
            <==> Safe(file) && SpellsBack(rest, symbols)
  {
    hide SpellsBack, WordText, OperatorText, Safe;
    var text := WordText(file, rest);
    var all := Cons(P.Symbol(kind, ""), Cons(P.Symbol(Word, file), symbols));
    BlankExact(OperatorText(kind, false, Cons(' ', text)), all);
    OperatorExact(kind, text, Cons(P.Symbol(Word, file), symbols));
    WordExact(file, rest, symbols);
  }

  predicate SafeRedirects(c: Command) {
    && (c.hasInput ==> Safe(c.inputFile))
    && (c.hasOutput ==> Safe(c.outputFile))
    && (c.hasError ==> Safe(c.errorFile))
  }

  /** Every word the printing of `c` contains is safe. */
  predicate SafeCommand(c: Command) {
    (forall v | v in c.args :: Safe(v)) && SafeRedirects(c)
  }

  lemma {:induction false} RedirectsExact(c: Command, rest: List<char>, symbols: List<P.Symbol>)
    requires Follows(rest)
    ensures Follows(InputText(c, rest))
    ensures SpellsBack(InputText(c, rest), G.ItemsYield(G.InputItems(c), symbols)) <==>
            SafeRedirects(c) && SpellsBack(rest, symbols)
  {
    hide SpellsBack, WordText, Safe;
    var output, error := G.ItemsYield(G.OutputItems(c), symbols), G.ItemsYield(G.ErrorItems(c), symbols);
    assert G.ItemsYield(Nil, symbols) == symbols;
    if c.hasError {
      RedirectExact(if c.appendError then RedirectErrAppend else RedirectErr, c.errorFile, rest, symbols);
    }
    if c.hasOutput {
      RedirectExact(if c.appendOutput then RedirectAppend else RedirectOut, c.outputFile, ErrorText(c, rest), error);
    }
    if c.hasInput {
      RedirectExact(RedirectIn, c.inputFile, OutputText(c, rest), output);
    }
  }

  lemma {:induction false} ArgsExact(
    args: seq<string>, i: nat, items: List<G.Item>, text: List<char>, symbols: List<P.Symbol>)
    requires i <= |args| && Follows(text)
    ensures i > 0 || args == [] ==> Follows(ArgsText(args, i, text))
    ensures SpellsBack(ArgsText(args, i, text), G.ItemsYield(G.ArgItems(args, i, items), symbols)) <==>
            (forall j | i <= j < |args| :: Safe(args[j])) && SpellsBack(text, G.ItemsYield(items, symbols))
    decreases |args| - i
  {
    hide SpellsBack, WordText, Safe;
    if i < |args| {
      var rest, after := ArgsText(args, i + 1, text), G.ItemsYield(G.ArgItems(args, i + 1, items), symbols);
      ArgsExact(args, i + 1, items, text, symbols);
      WordExact(args[i], rest, after);
      BlankExact(WordText(args[i], rest), Cons(P.Symbol(Word, args[i]), after));
    }
  }

  lemma {:induction false} CommandExact(c: Command, rest: List<char>, symbols: List<P.Symbol>)
    requires Follows(rest)
    ensures SpellsBack(CommandText(c, rest), G.ItemsYield(G.ItemsOf(c), symbols)) <==>
            SafeCommand(c) && SpellsBack(rest, symbols)
  {
    hide SpellsBack, InputText, Safe, SafeRedirects;
    RedirectsExact(c, rest, symbols);
    ArgsExact(c.args, 0, G.InputItems(c), InputText(c, rest), symbols);
    assert (forall v | v in c.args :: Safe(v)) <==> forall j | 0 <= j < |c.args| :: Safe(c.args[j]);
  }

  /** The symbols of the commands from `i` on, with the pipe that joins them to an earlier command. */
  function Piped(cs: seq<Command>, i: nat): List<P.Symbol>
    requires i <= |cs|
  {
    if i == |cs| then G.END_ONLY
    else
      var s := G.PipelineYield(G.TreesOf(cs, i), G.END_ONLY);
      if i > 0 then Cons(P.Symbol(Pipe, ""), s) else s
  }

  lemma {:induction false} PipedStep(cs: seq<Command>, i: nat)
    requires i < |cs|
    ensures G.PipelineYield(G.TreesOf(cs, i), G.END_ONLY) == G.ItemsYield(G.ItemsOf(cs[i]), Piped(cs, i + 1))
  {
    assert G.TreesOf(cs, i + 1).Nil? <==> i + 1 == |cs|;
  }

  lemma {:induction false} CommandsExact(cs: seq<Command>, i: nat)
    requires i <= |cs|
    ensures i > 0 || cs == [] ==> Follows(CommandsText(cs, i, Nil))
    ensures SpellsBack(CommandsText(cs, i, Nil), Piped(cs, i)) <==> forall j | i <= j < |cs| :: SafeCommand(cs[j])
    decreases |cs| - i
  {
    if i == |cs| {
      assert P.Erase(Cons(Token(End, "", 0), Nil)) == G.END_ONLY;
      return;
    }
    CommandsExact(cs, i + 1);
    CommandsExactStep(cs, i);
  }

  lemma {:induction false} CommandsExactStep(cs: seq<Command>, i: nat)
    requires i < |cs| && Follows(CommandsText(cs, i + 1, Nil))
    ensures SpellsBack(CommandsText(cs, i, Nil), Piped(cs, i)) <==>
            SafeCommand(cs[i]) && SpellsBack(CommandsText(cs, i + 1, Nil), Piped(cs, i + 1))
  {
    hide SpellsBack, CommandText, SafeCommand;
    var rest := CommandsText(cs, i + 1, Nil);
    CommandExact(cs[i], rest, Piped(cs, i + 1));
    PipedStep(cs, i);
    if i > 0 {
      var text, symbols := CommandText(cs[i], rest), G.PipelineYield(G.TreesOf(cs, i), G.END_ONLY);
      BlankExact(Cons('|', Cons(' ', text)), Cons(P.Symbol(Pipe, ""), symbols));
      OperatorExact(Pipe, text, symbols);
    }
  }

  /** A printed pipeline lexes to its own symbols exactly when every word printed in it is safe. */
  lemma {:induction false} DisplayExact(cs: seq<Command>)
    requires cs != []
    ensures SpellsBack(CommandsText(cs, 0, Nil), G.PipelineYield(G.TreesOf(cs, 0), G.END_ONLY)) <==>
            forall c | c in cs :: SafeCommand(c)
  {
    CommandsExact(cs, 0);
  }

  /** What displaying and parsing should give back. */
  function Whole(cs: seq<Command>): P.Outcome {
    P.Outcome(Cons(PipelineStep(Always, Pipeline(cs, false)), Nil), "")
  }

  /** Printing a pipeline of safe words and parsing the text gives that pipeline back, in the foreground. */
  lemma {:induction false} PipelineRoundTrip(cs: seq<Command>)
    requires cs != [] && forall c | c in cs :: c.args != [] && G.Canonical(c) && SafeCommand(c)
    ensures CommandLine.ParsedLine(StringOf(CommandsText(cs, 0, Nil))) == Whole(cs)
  {
    hide Scan;
    ListedStringOf(CommandsText(cs, 0, Nil));
    DisplayExact(cs);
    G.TreesMean(cs, 0);
    var es := Cons(G.Entry(G.TreesOf(cs, 0), End), Nil);
    G.EntriesProper(es);
    assert cs[..0] == [];
    assert G.Derives(es, G.PlanYield(es));
    G.ParseExact(G.PlanYield(es));
    assert G.PlanOf(Nil, Always) == Nil;
  }

  // ---------- an unsafe argument is lost in the parsed pipeline too ----------

  lemma {:induction false} SafeWordRead(v: string, rest: List<char>, all: List<P.Symbol>)
    requires Safe(v) && Follows(rest) && SpellsBack(WordText(v, rest), all)
    ensures all.Cons? && all.head == P.Symbol(Word, v) && SpellsBack(rest, all.tail)
  {
    hide Scan, WordText, WordPieces, Safe;
    SafeScan(v, rest);
    SpellsBackAnywhere(rest, PiecesSize(WordPieces(v)), all.tail);
  }

  lemma {:induction false} UnsafeWordRead(v: string, rest: List<char>, all: List<P.Symbol>)
    requires !Safe(v) && Follows(rest) && SpellsBack(WordText(v, rest), all)
    ensures all.Cons? && all.head.kind == Word && all.head.text != v
  {
    hide Scan;
    WordChars(v, 0);
    ScanDistorts(Listed(v, 0), rest, 0, Idle, Plain);
    UnsafeScan(v, rest, all.tail);
  }

  /** From argument `i` on, with `c` read so far: argument `k` comes back changed. */
  lemma {:induction false} ArgumentChanged(
    args: seq<string>, i: nat, k: nat, text: List<char>, c: Command, all: List<P.Symbol>)
    requires i <= k < |args| && (forall j | i <= j < k :: Safe(args[j])) && !Safe(args[k]) && Follows(text)
    requires SpellsBack(ArgsText(args, i, text), all) && |c.args| == i && P.CommandFrom(all, c).Good?
    ensures |P.CommandFrom(all, c).value.args| > k && P.CommandFrom(all, c).value.args[k] != args[k]
    decreases k - i
  {
    hide SpellsBack, WordText, Safe;
    var rest := ArgsText(args, i + 1, text);
    ArgsFollow(args, i + 1, text);
    if i > 0 {
      BlankExact(WordText(args[i], rest), all);
    }
    if i < k {
      SafeWordRead(args[i], rest, all);
      ArgumentChanged(args, i + 1, k, text, c.(args := c.args + [args[i]]), all.tail);
    } else {
      UnsafeWordRead(args[i], rest, all);
      P.ArgsOnlyGrow(all.tail, c.(args := c.args + [all.head.text]));
    }
  }

  lemma {:induction false} ArgsFollow(args: seq<string>, i: nat, text: List<char>)
    requires 0 < i <= |args| && Follows(text)
    ensures Follows(ArgsText(args, i, text))
  {
  }

  lemma {:induction false} RedirectRead(kind: TokenType, file: string, rest: List<char>, all: List<P.Symbol>)
    requires IsRedirection(kind) && Follows(rest) && Safe(file)
    requires SpellsBack(Cons(' ', OperatorText(kind, false, Cons(' ', WordText(file, rest)))), all)
    ensures all.Cons? && all.head == P.Symbol(kind, "") && all.tail.Cons? && all.tail.head == P.Symbol(Word, file)
    ensures SpellsBack(rest, all.tail.tail)
  {
    hide SpellsBack, WordText, OperatorText, Safe;
    var text := WordText(file, rest);
    BlankExact(OperatorText(kind, false, Cons(' ', text)), all);
    OperatorRead(kind, text, all);
    SafeWordRead(file, rest, all.tail);
  }

  lemma {:induction false} OperatorRead(kind: TokenType, s: List<char>, all: List<P.Symbol>)
    requires kind != Word && kind != End && SpellsBack(OperatorText(kind, false, Cons(' ', s)), all)
    ensures all.Cons? && all.head == P.Symbol(kind, "") && SpellsBack(s, all.tail)
  {
    hide Scan, OperatorText;
    var n := |Spelling(kind, false)|;
    ScanOperator(kind, false, Cons(' ', s), 0, Idle);
    SpellsBackAnywhere(Cons(' ', s), n, all.tail);
    BlankExact(s, all.tail);
  }

  lemma {:induction false} RedirectsRead(c: Command, rest: List<char>, all: List<P.Symbol>)
    returns (tail: List<P.Symbol>)
    requires SafeRedirects(c) && Follows(rest) && SpellsBack(InputText(c, rest), all)
    ensures all == G.ItemsYield(G.InputItems(c), tail) && SpellsBack(rest, tail)
  {
    hide SpellsBack, WordText, Safe;
    tail := all;
    if c.hasInput {
      RedirectRead(RedirectIn, c.inputFile, OutputText(c, rest), tail);
      tail := tail.tail.tail;
    }
    ghost var output := tail;
    if c.hasOutput {
      RedirectRead(if c.appendOutput then RedirectAppend else RedirectOut, c.outputFile, ErrorText(c, rest), tail);
      tail := tail.tail.tail;
    }
    ghost var error := tail;
    if c.hasError {
      RedirectRead(if c.appendError then RedirectErrAppend else RedirectErr, c.errorFile, rest, tail);
      tail := tail.tail.tail;
    }
    assert error == G.ItemsYield(G.ErrorItems(c), tail);
    assert output == G.ItemsYield(G.OutputItems(c), tail);
  }

  lemma {:induction false} ArgsRead(args: seq<string>, i: nat, text: List<char>, all: List<P.Symbol>)
    returns (tail: List<P.Symbol>)
    requires i <= |args| && (forall j | i <= j < |args| :: Safe(args[j])) && Follows(text)
    requires SpellsBack(ArgsText(args, i, text), all)
    ensures SpellsBack(text, tail)
    ensures forall items, after | tail == G.ItemsYield(items, after) ::
              all == G.ItemsYield(G.ArgItems(args, i, items), after)
    decreases |args| - i
  {
    hide SpellsBack, WordText, Safe;
    if i == |args| {
      tail := all;
    } else {
      var rest := ArgsText(args, i + 1, text);
      ArgsFollow(args, i + 1, text);
      if i > 0 {
        BlankExact(WordText(args[i], rest), all);
      }
      SafeWordRead(args[i], rest, all);
      tail := ArgsRead(args, i + 1, text, all.tail);
    }
  }

  /** A command of safe words reads back as itself, whatever the text after it reads as. */
  lemma {:induction false} CommandRead(c: Command, rest: List<char>, all: List<P.Symbol>) returns (tail: List<P.Symbol>)
    requires SafeCommand(c) && Follows(rest) && SpellsBack(CommandText(c, rest), all)
    ensures all == G.ItemsYield(G.ItemsOf(c), tail) && SpellsBack(rest, tail)
  {
    hide SpellsBack, InputText, Safe, SafeRedirects;
    RedirectsExact(c, rest, Nil);
    assert forall j | 0 <= j < |c.args| :: c.args[j] in c.args;
    var after := ArgsRead(c.args, 0, InputText(c, rest), all);
    tail := RedirectsRead(c, rest, after);
  }

  /** Every word displayed before argument `k` of command `m` is safe, and that argument is not. */
  predicate FirstUnsafe(cs: seq<Command>, m: nat, k: nat) {
    && m < |cs| && k < |cs[m].args| && !Safe(cs[m].args[k])
    && (forall j | 0 <= j < m :: SafeCommand(cs[j]))
    && forall j | 0 <= j < k :: Safe(cs[m].args[j])
  }

  lemma {:induction false} PipelineChanged(
    cs: seq<Command>, i: nat, m: nat, k: nat, before: seq<Command>, all: List<P.Symbol>)
    requires i <= m && FirstUnsafe(cs, m, k) && |before| == i && forall c | c in cs :: c.args != [] && G.Canonical(c)
    ensures SpellsBack(CommandText(cs[i], CommandsText(cs, i + 1, Nil)), all) && P.PipelineFrom(all, before).Good? ==>
              |P.PipelineFrom(all, before).value| > m && P.PipelineFrom(all, before).value[m] != cs[m]
    decreases m - i
  {
    hide SpellsBack, CommandText, SafeCommand, Safe;
    var c, rest := cs[i], CommandsText(cs, i + 1, Nil);
    if !SpellsBack(CommandText(c, rest), all) || P.PipelineFrom(all, before).Bad? {
      return;
    }
    CommandsExact(cs, i + 1);
    P.CommandsOnlyGrow(all, before);
    if i == m {
      CommandChanged(c, k, rest, all);
      assert (before + [P.CommandFrom(all, NO_COMMAND).value])[m] == P.CommandFrom(all, NO_COMMAND).value;
    } else {
      var tail := CommandRead(c, rest, all);
      var text := CommandText(cs[i + 1], CommandsText(cs, i + 2, Nil));
      BlankExact(Cons('|', Cons(' ', text)), tail);
      OperatorRead(Pipe, text, tail);
      G.ItemsMean(c);
      G.CommandParsed(G.ItemsOf(c), NO_COMMAND, tail);
      PipelineChanged(cs, i + 1, m, k, before + [c], tail.tail);
    }
  }

  lemma {:induction false} CommandChanged(c: Command, k: nat, rest: List<char>, all: List<P.Symbol>)
    requires k < |c.args| && (forall j | 0 <= j < k :: Safe(c.args[j])) && !Safe(c.args[k]) && Follows(rest)
    requires SpellsBack(CommandText(c, rest), all) && P.CommandFrom(all, NO_COMMAND).Good?
    ensures P.CommandFrom(all, NO_COMMAND).value != c
  {
    hide SpellsBack, InputText, Safe;
    RedirectsExact(c, rest, Nil);
    ArgumentChanged(c.args, 0, k, InputText(c, rest), NO_COMMAND, all);
  }

  /** Where the first unsafe word is an argument, parsing the display does not give the pipeline back. */
  lemma {:induction false} UnsafeArgumentLost(cs: seq<Command>, m: nat, k: nat)
    requires FirstUnsafe(cs, m, k) && forall c | c in cs :: c.args != [] && G.Canonical(c)
    ensures CommandLine.ParsedLine(StringOf(CommandsText(cs, 0, Nil))) != Whole(cs)
  {
    hide Scan, CommandText, FirstUnsafe;
    assert m < |cs| by { FirstUnsafeInside(cs, m, k); }
    var text := CommandsText(cs, 0, Nil);
    ListedStringOf(text);
    var all := P.Erase(Scan(text, 0, Idle, Plain).tokens);
    if CommandLine.ParsedLine(StringOf(text)) == Whole(cs) {
      assert SpellsBack(text, all) && P.PipelineFrom(all, []).Good?;
      PipelineChanged(cs, 0, m, k, [], all);
    }
  }

  lemma {:induction false} FirstUnsafeInside(cs: seq<Command>, m: nat, k: nat)
    requires FirstUnsafe(cs, m, k)
    ensures m < |cs|
  {
  }

  lemma {:induction false} FindUnsafe(cs: seq<Command>, m: nat) returns (n: nat, k: nat)
    requires m < |cs| && !SafeCommand(cs[m]) && forall c | c in cs :: SafeRedirects(c)
    ensures FirstUnsafe(cs, n, k)
  {
    if j :| 0 <= j < m && !SafeCommand(cs[j]) {
      n, k := FindUnsafe(cs, j);
    } else {
      n := m;
      var v :| v in cs[m].args && !Safe(v);
      k :| 0 <= k < |cs[m].args| && cs[m].args[k] == v;
      k := FindUnsafeArgument(cs[m].args, k);
    }
  }

  lemma {:induction false} FindUnsafeArgument(args: seq<string>, k: nat) returns (n: nat)
    requires k < |args| && !Safe(args[k])
    ensures n < |args| && !Safe(args[n]) && forall j | 0 <= j < n :: Safe(args[j])
  {
    n := k;
    if j :| 0 <= j < k && !Safe(args[j]) {
      n := FindUnsafeArgument(args, j);
    }
  }

  /** With safe file names, displaying and parsing gives the pipeline back if and only if every argument is safe. */
  lemma {:induction false} RoundTripExact(cs: seq<Command>)
    requires cs != [] && forall c | c in cs :: c.args != [] && G.Canonical(c) && SafeRedirects(c)
    ensures CommandLine.ParsedLine(StringOf(CommandsText(cs, 0, Nil))) == Whole(cs) <==>
            forall c | c in cs :: SafeCommand(c)
  {
    hide CommandLine.ParsedLine, Safe, SafeRedirects, FirstUnsafe;
    if forall c | c in cs :: SafeCommand(c) {
      PipelineRoundTrip(cs);
    } else {
      var c :| c in cs && !SafeCommand(c);
      var m :| 0 <= m < |cs| && cs[m] == c;
      var n, k := FindUnsafe(cs, m);
      UnsafeArgumentLost(cs, n, k);
    }
  }
}
