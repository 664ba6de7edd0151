/** The lexer: a character loop with two quote flags and one pending word. */
module Lexer {
  import opened Syntax

  datatype Quote = Plain | Single | Double

  /** The word being collected, if one has started. */
  datatype Pending = Idle | Building(text: string, start: nat)

  datatype Match = NotFound | Found(kind: TokenType, text: string, rest: List<char>)

  /** `error` is empty on success; tokens read before an error are kept, as the source keeps them. */
  datatype Stream = Stream(tokens: List<Token>, error: string)

  const TRAILING_ESCAPE := "syntax error: trailing escape"
  const UNMATCHED_SINGLE := "syntax error: unmatched single quote"
  const UNMATCHED_DOUBLE := "syntax error: unmatched double quote"

  /** Starts the word at `pos` when none is pending, and appends `text` to it. */
  function Grow(w: Pending, pos: nat, text: string): Pending {
    match w
    case Idle => Building(text, pos)
    case Building(t, start) => Building(t + text, start)
  }

  /** The pending word, if any, followed by `rest`. */
  function Flush(w: Pending, rest: List<Token>): List<Token> {
    match w
    case Idle => rest
    case Building(t, start) => Cons(Token(Word, t, start), rest)
  }

  /** The operator at the front of `s`; `1>` and `2>` count only where no word is pending. */
  function OperatorAt(s: List<char>, pending: bool): (m: Match)
    ensures m.Found? ==> s.Cons? && m.rest < s
  {
    match s
    case Cons('&', Cons('&', r)) => Found(AndIf, "&&", r)
    case Cons('&', r) => Found(Background, "&", r)
    case Cons('|', Cons('|', r)) => Found(OrIf, "||", r)
    case Cons('|', r) => Found(Pipe, "|", r)
    case Cons(';', r) => Found(Semicolon, ";", r)
    case Cons('<', r) => Found(RedirectIn, "<", r)
    case Cons('2', Cons('>', Cons('>', r))) => if pending then NotFound else Found(RedirectErrAppend, "2>>", r)
    case Cons('2', Cons('>', r)) => if pending then NotFound else Found(RedirectErr, "2>", r)
    case Cons('1', Cons('>', Cons('>', r))) => if pending then NotFound else Found(RedirectAppend, "1>>", r)
    case Cons('1', Cons('>', r)) => if pending then NotFound else Found(RedirectOut, "1>", r)
    case Cons('>', Cons('>', r)) => Found(RedirectAppend, ">>", r)
    case Cons('>', r) => Found(RedirectOut, ">", r)
    case _ => NotFound
  }

  /** What an escaped character stands for; inside double quotes most backslashes are kept. */
  function Unescape(c: char, quote: Quote): string {
    if quote == Double && c != '"' && c != '\\' && c != '$' && c != '`' && c != '\n' then ['\\', c] else [c]
  }

  function Unterminated(quote: Quote): string {
    match quote case Plain => "" case Single => UNMATCHED_SINGLE case Double => UNMATCHED_DOUBLE
  }

  /** Lexing of the remaining text `s`, which stands at offset `pos` of the line. */
  function Scan(s: List<char>, pos: nat, w: Pending, quote: Quote): Stream
    decreases s
  {
    match s
    case Nil =>
      if quote == Plain then Stream(Flush(w, Cons(Token(End, "", pos), Nil)), "") else Stream(Nil, Unterminated(quote))
    case Cons(c, t) =>
      if c == '\\' && quote != Single then
        match t
        case Nil => Stream(Nil, TRAILING_ESCAPE)
        case Cons(next, r) => Scan(r, pos + 2, Grow(w, pos, Unescape(next, quote)), quote)
      else if c == '\'' && quote != Double then
        Scan(t, pos + 1, Grow(w, pos, ""), if quote == Single then Plain else Single)
      else if c == '"' && quote != Single then
        Scan(t, pos + 1, Grow(w, pos, ""), if quote == Double then Plain else Double)
      else if quote != Plain then
        Scan(t, pos + 1, Grow(w, pos, [c]), quote)
      else if IsSpace(c) then
        var Stream(tokens, error) := Scan(t, pos + 1, Idle, Plain);
        Stream(Flush(w, tokens), error)
      else match OperatorAt(s, w.Building?)
        case Found(kind, text, r) =>
          var Stream(tokens, error) := Scan(r, pos + |text|, Idle, Plain);
          Stream(Flush(w, Cons(Token(kind, text, pos), tokens)), error)
        case NotFound => Scan(t, pos + 1, Grow(w, pos, [c]), Plain)
  }

  // The defining equations of `Scan`, one for each branch of the loop; longer proofs use these alone.

  lemma {:induction false} ScanEnd(pos: nat, w: Pending, quote: Quote)
    ensures Scan(Nil, pos, w, quote) ==
            if quote == Plain then Stream(Flush(w, Cons(Token(End, "", pos), Nil)), "")
            else Stream(Nil, Unterminated(quote))
  {
  }

  lemma {:induction false} ScanEscape(t: List<char>, pos: nat, w: Pending, quote: Quote)
    requires quote != Single
    ensures Scan(Cons('\\', t), pos, w, quote) ==
            match t
            case Nil => Stream(Nil, TRAILING_ESCAPE)
            case Cons(next, r) => Scan(r, pos + 2, Grow(w, pos, Unescape(next, quote)), quote)
  {
  }

  function Toggled(c: char, quote: Quote): Quote {
    if quote != Plain then Plain else if c == '"' then Double else Single
  }

  predicate Toggles(c: char, quote: Quote) {
    (c == '\'' && quote != Double) || (c == '"' && quote != Single)
  }

  lemma {:induction false} ScanQuote(c: char, t: List<char>, pos: nat, w: Pending, quote: Quote)
    requires Toggles(c, quote)
    ensures Scan(Cons(c, t), pos, w, quote) == Scan(t, pos + 1, Grow(w, pos, ""), Toggled(c, quote))
  {
  }

  lemma {:induction false} ScanQuoted(c: char, t: List<char>, pos: nat, w: Pending, quote: Quote)
    requires quote != Plain && !Toggles(c, quote) && (c == '\\' ==> quote == Single)
    ensures Scan(Cons(c, t), pos, w, quote) == Scan(t, pos + 1, Grow(w, pos, [c]), quote)
  {
  }

  lemma {:induction false} ScanBlank(c: char, t: List<char>, pos: nat, w: Pending)
    requires IsSpace(c)
    ensures var Stream(tokens, error) := Scan(t, pos + 1, Idle, Plain);
            Scan(Cons(c, t), pos, w, Plain) == Stream(Flush(w, tokens), error)
  {
  }

  lemma {:induction false} ScanPlain(c: char, t: List<char>, pos: nat, w: Pending)
    requires !IsQuoting(c) && !IsSpace(c)
    ensures Scan(Cons(c, t), pos, w, Plain) ==
            match OperatorAt(Cons(c, t), w.Building?)
            case NotFound => Scan(t, pos + 1, Grow(w, pos, [c]), Plain)
            case Found(kind, text, r) =>
              var Stream(tokens, error) := Scan(r, pos + |text|, Idle, Plain);
              Stream(Flush(w, Cons(Token(kind, text, pos), tokens)), error)
  {
  }

  function Lexed(input: string): Stream {
    Scan(Listed(input, 0), 0, Idle, Plain)
  }

  /** The flags of the loop as one of the three quote modes. */
  function Mode(inSingle: bool, inDouble: bool): Quote {
    if inSingle then Single else if inDouble then Double else Plain
  }

  function Collected(current: string, start: nat, started: bool): Pending {
    if started then Building(current, start) else Idle
  }

  method EscapedText(next: char, inDouble: bool) returns (text: string)
    ensures text == Unescape(next, if inDouble then Double else Plain)
    ensures text == if inDouble && next !in {'"', '\\', '$', '`', '\n'} then ['\\', next] else [next]
  {
    text := [next];
    if inDouble {
      if next == '"' || next == '\\' || next == '$' || next == '`' || next == '\n' {
      } else {
        text := ['\\', next];
      }
    }
  }

  /** The operator at `input[i..]`; a length of zero means there is none. */
  method RecognizeOperator(input: string, i: nat, wordStarted: bool) returns (kind: TokenType, length: nat)
    requires i < |input|
    ensures i + length <= |input|
    ensures OperatorAt(Listed(input, i), wordStarted) ==
            if length == 0 then NotFound else Found(kind, input[i..i + length], Listed(input, i + length))
  {
    var c := input[i];
    assert Listed(input, i) == Cons(c, Listed(input, i + 1));
    assert i + 1 < |input| ==> Listed(input, i + 1) == Cons(input[i + 1], Listed(input, i + 2));
    assert i + 2 < |input| ==> Listed(input, i + 2) == Cons(input[i + 2], Listed(input, i + 3));
    kind, length := End, 0;
    if c == '&' && i + 1 < |input| && input[i + 1] == '&' {
      kind, length := AndIf, 2;
    } else if c == '&' {
      kind, length := Background, 1;
    } else if c == '|' && i + 1 < |input| && input[i + 1] == '|' {
      kind, length := OrIf, 2;
    } else if c == '|' {
      kind, length := Pipe, 1;
    } else if c == ';' {
      kind, length := Semicolon, 1;
    } else if c == '<' {
      kind, length := RedirectIn, 1;
    } else if c == '2' && !wordStarted && i + 1 < |input| && input[i + 1] == '>' {
      if i + 2 < |input| && input[i + 2] == '>' {
        kind, length := RedirectErrAppend, 3;
      } else {
        kind, length := RedirectErr, 2;
      }
    } else if c == '1' && !wordStarted && i + 1 < |input| && input[i + 1] == '>' {
      if i + 2 < |input| && input[i + 2] == '>' {
        kind, length := RedirectAppend, 3;
      } else {
        kind, length := RedirectOut, 2;
      }
    } else if c == '>' {
      if i + 1 < |input| && input[i + 1] == '>' {
        kind, length := RedirectAppend, 2;
      } else {
        kind, length := RedirectOut, 1;
      }
    }
  }

  /** The tokens already emitted, followed by what scanning from `i` still yields, make up the whole result. */
  ghost predicate Owes(input: string, i: nat, tokens: seq<Token>, w: Pending, quote: Quote) {
    i <= |input| &&
    var Stream(rest, error) := Scan(Listed(input, i), i, w, quote);
    Lexed(input) == Stream(Push(tokens, rest), error)
  }

  lemma {:induction false} ProduceWord(tokens: seq<Token>, w: Pending, rest: List<Token>, tokens': seq<Token>)
    requires tokens' == match w case Idle => tokens case Building(t, start) => tokens + [Token(Word, t, start)]
    ensures Push(tokens, Flush(w, rest)) == Push(tokens', rest)
  {
    if w.Building? {
      PushLast(tokens, Token(Word, w.text, w.start), rest);
    }
  }

  // One step of the loop each: what is owed afterwards, given what was owed before.

  lemma {:induction false} OwesAtEnd(input: string, tokens: seq<Token>, w: Pending, quote: Quote, tokens': seq<Token>)
    requires Owes(input, |input|, tokens, w, quote)
    requires quote == Plain ==>
               tokens' == (match w case Idle => tokens case Building(t, start) => tokens + [Token(Word, t, start)])
                          + [Token(End, "", |input|)]
    requires quote != Plain ==> tokens' == tokens
    ensures Lexed(input) == Stream(Listed(tokens', 0), Unterminated(quote))
  {
    hide Scan;
    ScanEnd(|input|, w, quote);
    PushAll(tokens');
    if quote == Plain {
      var end := Token(End, "", |input|);
      var flushed := tokens'[..|tokens'| - 1];
      assert tokens' == flushed + [end];
      ProduceWord(tokens, w, Cons(end, Nil), flushed);
      PushLast(flushed, end, Nil);
    }
  }

  lemma {:induction false} OwesEscape(input: string, i: nat, tokens: seq<Token>, w: Pending, quote: Quote)
    requires Owes(input, i, tokens, w, quote) && i < |input| && input[i] == '\\' && quote != Single
    ensures i + 1 == |input| ==> Lexed(input) == Stream(Listed(tokens, 0), TRAILING_ESCAPE)
    ensures i + 1 < |input| ==> Owes(input, i + 2, tokens, Grow(w, i, Unescape(input[i + 1], quote)), quote)
  {
    hide Scan, Unescape;
    assert Listed(input, i) == Cons('\\', Listed(input, i + 1));
    ScanEscape(Listed(input, i + 1), i, w, quote);
    PushAll(tokens);
  }

  lemma {:induction false} OwesQuote(input: string, i: nat, tokens: seq<Token>, w: Pending, quote: Quote)
    requires Owes(input, i, tokens, w, quote) && i < |input| && Toggles(input[i], quote)
    ensures Owes(input, i + 1, tokens, Grow(w, i, ""), Toggled(input[i], quote))
  {
    hide Scan, Toggles, Toggled;
    assert Listed(input, i) == Cons(input[i], Listed(input, i + 1));
    ScanQuote(input[i], Listed(input, i + 1), i, w, quote);
  }

  lemma {:induction false} OwesQuoted(input: string, i: nat, tokens: seq<Token>, w: Pending, quote: Quote)
    requires Owes(input, i, tokens, w, quote) && i < |input|
    requires quote != Plain && !Toggles(input[i], quote) && (input[i] == '\\' ==> quote == Single)
    ensures Owes(input, i + 1, tokens, Grow(w, i, [input[i]]), quote)
  {
    hide Scan, Toggles;
    assert Listed(input, i) == Cons(input[i], Listed(input, i + 1));
    ScanQuoted(input[i], Listed(input, i + 1), i, w, quote);
  }

  lemma {:induction false} OwesBlank(input: string, i: nat, tokens: seq<Token>, w: Pending, tokens': seq<Token>)
    requires Owes(input, i, tokens, w, Plain) && i < |input| && IsSpace(input[i])
    requires tokens' == match w case Idle => tokens case Building(t, start) => tokens + [Token(Word, t, start)]
    ensures Owes(input, i + 1, tokens', Idle, Plain)
  {
    hide Scan, IsSpace;
    assert Listed(input, i) == Cons(input[i], Listed(input, i + 1));
    ScanBlank(input[i], Listed(input, i + 1), i, w);
    ProduceWord(tokens, w, Scan(Listed(input, i + 1), i + 1, Idle, Plain).tokens, tokens');
  }

  lemma {:induction false} OwesPlain(
    input: string, i: nat, tokens: seq<Token>, w: Pending, kind: TokenType, length: nat, tokens': seq<Token>)
    requires Owes(input, i, tokens, w, Plain) && i < |input| && !IsQuoting(input[i]) && !IsSpace(input[i])
    requires i + length <= |input|
    requires OperatorAt(Listed(input, i), w.Building?) ==
             if length == 0 then NotFound else Found(kind, input[i..i + length], Listed(input, i + length))
    requires length > 0 ==>
               tokens' == (match w case Idle => tokens case Building(t, start) => tokens + [Token(Word, t, start)])
                          + [Token(kind, input[i..i + length], i)]
    ensures length == 0 ==> Owes(input, i + 1, tokens, Grow(w, i, [input[i]]), Plain)
    ensures length > 0 ==> Owes(input, i + length, tokens', Idle, Plain)
  {
    hide Scan, OperatorAt, IsSpace, IsQuoting;
    assert Listed(input, i) == Cons(input[i], Listed(input, i + 1));
    ScanPlain(input[i], Listed(input, i + 1), i, w);
    if length > 0 {
      var token, rest := tokens'[|tokens'| - 1], Scan(Listed(input, i + length), i + length, Idle, Plain).tokens;
      var flushed := tokens'[..|tokens'| - 1];
      assert tokens' == flushed + [token];
      ProduceWord(tokens, w, Cons(token, rest), flushed);
      PushLast(flushed, token, rest);
    }
  }

  method Lex(input: string) returns (r: LexResult)
    ensures Lexed(input) == Stream(Listed(r.tokens, 0), r.error)
  {
    hide Owes, Lexed, OperatorAt, Unescape, IsSpace;
    var tokens: seq<Token> := [];
    var current := "";
    var wordStart := 0;
    var inSingle, inDouble, wordStarted := false, false, false;
    var i := 0;
    NothingOwed(input);
    while i < |input|
      invariant 0 <= i <= |input|
      invariant !(inSingle && inDouble)
      invariant inSingle || inDouble ==> wordStarted
      invariant !wordStarted ==> current == ""
      invariant Owes(input, i, tokens, Collected(current, wordStart, wordStarted), Mode(inSingle, inDouble))
    {
      var c := input[i];
      ghost var w, quote := Collected(current, wordStart, wordStarted), Mode(inSingle, inDouble);
      if c == '\\' {
        if !wordStarted { wordStart, wordStarted := i, true; }
        if inSingle {
          OwesQuoted(input, i, tokens, w, quote);
          current := current + [c];
          i := i + 1;
          continue;
        }
        OwesEscape(input, i, tokens, w, quote);
        if i + 1 >= |input| {
          return LexResult(tokens, TRAILING_ESCAPE);
        }
        i := i + 1;
        var text := EscapedText(input[i], inDouble);
        assert "" + text == text;
        current := current + text;
        i := i + 1;
        continue;
      }
      if c == '\'' && !inDouble {
        if !wordStarted { wordStart, wordStarted := i, true; }
        OwesQuote(input, i, tokens, w, quote);
        assert current + "" == current;
        inSingle := !inSingle;
        i := i + 1;
        continue;
      }
      if c == '"' && !inSingle {
        if !wordStarted { wordStart, wordStarted := i, true; }
        OwesQuote(input, i, tokens, w, quote);
        assert current + "" == current;
        inDouble := !inDouble;
        i := i + 1;
        continue;
      }
      if inSingle || inDouble {
        OwesQuoted(input, i, tokens, w, quote);
        current := current + [c];
        i := i + 1;
        continue;
      }
      if IsSpace(c) {
        ghost var before := tokens;
        if wordStarted {
          tokens := tokens + [Token(Word, current, wordStart)];
          current, wordStarted := "", false;
        }
        OwesBlank(input, i, before, w, tokens);
        i := i + 1;
        continue;
      }
      var kind, length := RecognizeOperator(input, i, wordStarted);
      if length > 0 {
        ghost var before := tokens;
        if wordStarted {
          tokens := tokens + [Token(Word, current, wordStart)];
          current, wordStarted := "", false;
        }
        tokens := tokens + [Token(kind, input[i..i + length], i)];
        OwesPlain(input, i, before, w, kind, length, tokens);
        i := i + length;
      } else {
        OwesPlain(input, i, tokens, w, kind, length, tokens);
        assert "" + [c] == [c];
        if !wordStarted { wordStart, wordStarted := i, true; }
        current := current + [c];
        i := i + 1;
      }
    }
    ghost var before, w := tokens, Collected(current, wordStart, wordStarted);
    if inSingle {
      OwesAtEnd(input, tokens, w, Single, tokens);
      return LexResult(tokens, UNMATCHED_SINGLE);
    }
    if inDouble {
      OwesAtEnd(input, tokens, w, Double, tokens);
      return LexResult(tokens, UNMATCHED_DOUBLE);
    }
    if wordStarted {
      tokens := tokens + [Token(Word, current, wordStart)];
    }
    tokens := tokens + [Token(End, "", |input|)];
    OwesAtEnd(input, before, w, Plain, tokens);
    r := LexResult(tokens, "");
  }

  lemma {:induction false} NothingOwed(input: string)
    ensures Owes(input, 0, [], Idle, Plain)
  {
  }
}
