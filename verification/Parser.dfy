/** The parser: a cursor over the tokens, advanced by recursive descent. */
module Parser {
  import opened Syntax

  /** What the parser looks at in a token: its kind, and the text of a word. */
  datatype Symbol = Symbol(kind: TokenType, text: string)

  datatype Parsed<+T> = Good(value: T, rest: List<Symbol>) | Bad(message: string)

  /** `error` is empty on success; steps parsed before an error are kept, as the source keeps them. */
  datatype Outcome = Outcome(steps: List<PipelineStep>, error: string)

  const EMPTY_STREAM := "syntax error: empty token stream"
  const NO_COMMAND_ERROR := "syntax error: expected command"
  const NO_FILENAME := "syntax error: expected filename after redirection"
  const NO_COMMAND_AFTER_PIPE := "syntax error: expected command after pipe"
  const NO_COMMAND_AFTER_OPERATOR := "syntax error: expected command after operator"
  const UNEXPECTED_TOKEN := "syntax error: unexpected token"

  function SymbolOf(t: Token): Symbol {
    Symbol(t.kind, if t.kind == Word then t.text else "")
  }

  function Erase(ts: List<Token>): List<Symbol> {
    match ts case Nil => Nil case Cons(t, tail) => Cons(SymbolOf(t), Erase(tail))
  }

  predicate AtEnd(s: List<Symbol>) {
    s.Nil? || s.head.kind == End
  }

  /** Tokens that end a command without starting another one. */
  predicate Terminates(kind: TokenType) {
    kind == Pipe || kind == AndIf || kind == OrIf || kind == Semicolon || kind == Background || kind == End
  }

  function Redirected(c: Command, kind: TokenType, file: string): (r: Command)
    ensures r.args == c.args
  {
    match kind
    case RedirectIn => c.(hasInput := true, inputFile := file)
    case RedirectOut => c.(hasOutput := true, appendOutput := false, outputFile := file)
    case RedirectAppend => c.(hasOutput := true, appendOutput := true, outputFile := file)
    case RedirectErr => c.(hasError := true, appendError := false, errorFile := file)
    case RedirectErrAppend => c.(hasError := true, appendError := true, errorFile := file)
    case _ => c
  }

  // ---------- what a command is, read off the symbols that spell it ----------

  /** The words of the command at the front of `s` that are not file names, in order. */
  function WordsOf(s: List<Symbol>): seq<string> {
    match s
    case Nil => []
    case Cons(Symbol(Word, text), tail) => [text] + WordsOf(tail)
    case Cons(Symbol(kind, _), tail) => if IsRedirection(kind) && tail.Cons? then WordsOf(tail.tail) else []
  }

  /** The last redirection of the command at the front of `s` that is of one of two kinds. */
  function LastOf(s: List<Symbol>, kind: TokenType, other: TokenType): Option<(TokenType, string)> {
    match s
    case Nil => None
    case Cons(Symbol(Word, _), tail) => LastOf(tail, kind, other)
    case Cons(Symbol(k, _), tail) =>
      if !IsRedirection(k) || tail.Nil? then None
      else
        var later := LastOf(tail.tail, kind, other);
        if later.Some? then later
        else if k == kind || k == other then Some((k, tail.head.text)) else None
  }

  lemma {:induction false} LastOfEnd(s: List<Symbol>, kind: TokenType, other: TokenType)
    requires s.Cons? && Terminates(s.head.kind)
    ensures LastOf(s, kind, other) == None
  {
  }

  lemma {:induction false} LastOfWord(text: string, tail: List<Symbol>, kind: TokenType, other: TokenType)
    ensures LastOf(Cons(Symbol(Word, text), tail), kind, other) == LastOf(tail, kind, other)
  {
  }

  lemma {:induction false} LastOfRedirect(
    k: TokenType, file: string, tail: List<Symbol>, kind: TokenType, other: TokenType)
    requires IsRedirection(k)
    ensures LastOf(Cons(Symbol(k, ""), Cons(Symbol(Word, file), tail)), kind, other) ==
            if LastOf(tail, kind, other).Some? then LastOf(tail, kind, other)
            else if k == kind || k == other then Some((k, file)) else None
  {
  }

  /**
    `c` is the command those symbols spell: its arguments are their words, and each stream goes to the file of the last
    redirection of that stream, appended to if that redirection says so.
   */
  predicate Spells(s: List<Symbol>, c: Command) {
    var input := LastOf(s, RedirectIn, RedirectIn);
    var output := LastOf(s, RedirectOut, RedirectAppend);
    var error := LastOf(s, RedirectErr, RedirectErrAppend);
    && c.args == WordsOf(s)
    && c.hasInput == input.Some? && c.inputFile == (if input.Some? then input.value.1 else "")
    && c.hasOutput == output.Some? && c.outputFile == (if output.Some? then output.value.1 else "")
    && c.appendOutput == (output.Some? && output.value.0 == RedirectAppend)
    && c.hasError == error.Some? && c.errorFile == (if error.Some? then error.value.1 else "")
    && c.appendError == (error.Some? && error.value.0 == RedirectErrAppend)
  }

  /** Reads a command from `s` on top of the part `c` read so far. */
  function CommandFrom(s: List<Symbol>, c: Command): (p: Parsed<Command>)
    ensures p.Good? ==> p.rest == s || p.rest < s
    ensures p.Good? && c.args == [] ==> p.rest < s
    ensures p.Bad? ==> p.message != ""
    decreases s
  {
    match s
    case Cons(Symbol(Word, text), tail) => CommandFrom(tail, c.(args := c.args + [text]))
    case Cons(Symbol(kind, _), tail) =>
      if IsRedirection(kind) then
        match tail
        case Cons(Symbol(Word, file), tail') => CommandFrom(tail', Redirected(c, kind, file))
        case _ => Bad(NO_FILENAME)
      else if c.args == [] then Bad(NO_COMMAND_ERROR) else Good(c, s)
    case Nil => if c.args == [] then Bad(NO_COMMAND_ERROR) else Good(c, s)
  }

  lemma {:induction false} ArgsRead(s: List<Symbol>, c: Command)
    requires CommandFrom(s, c).Good?
    ensures CommandFrom(s, c).value.args == c.args + WordsOf(s)
    decreases s
  {
    if s.Cons? && s.head.kind == Word {
      ArgsRead(s.tail, c.(args := c.args + [s.head.text]));
    } else if s.Cons? && IsRedirection(s.head.kind) {
      ArgsRead(s.tail.tail, Redirected(c, s.head.kind, s.tail.head.text));
    }
  }

  lemma {:induction false} InputRead(s: List<Symbol>, c: Command)
    requires CommandFrom(s, c).Good?
    ensures var input, r := LastOf(s, RedirectIn, RedirectIn), CommandFrom(s, c).value;
            if input.Some? then r.hasInput && r.inputFile == input.value.1
            else r.hasInput == c.hasInput && r.inputFile == c.inputFile
    decreases s
  {
    if s.Cons? && s.head.kind == Word {
      InputRead(s.tail, c.(args := c.args + [s.head.text]));
    } else if s.Cons? && IsRedirection(s.head.kind) {
      InputRead(s.tail.tail, Redirected(c, s.head.kind, s.tail.head.text));
    }
  }

  lemma {:induction false} OutputRead(s: List<Symbol>, c: Command)
    requires CommandFrom(s, c).Good?
    ensures var output, r := LastOf(s, RedirectOut, RedirectAppend), CommandFrom(s, c).value;
            if output.Some?
            then r.hasOutput && r.outputFile == output.value.1 && r.appendOutput == (output.value.0 == RedirectAppend)
            else r.hasOutput == c.hasOutput && r.outputFile == c.outputFile && r.appendOutput == c.appendOutput
    decreases s
  {
    if s.Cons? && s.head.kind == Word {
      OutputRead(s.tail, c.(args := c.args + [s.head.text]));
    } else if s.Cons? && IsRedirection(s.head.kind) {
      OutputRead(s.tail.tail, Redirected(c, s.head.kind, s.tail.head.text));
    }
  }

  lemma {:induction false} ErrorRead(s: List<Symbol>, c: Command)
    requires CommandFrom(s, c).Good?
    ensures var error, r := LastOf(s, RedirectErr, RedirectErrAppend), CommandFrom(s, c).value;
            if error.Some?
            then r.hasError && r.errorFile == error.value.1 && r.appendError == (error.value.0 == RedirectErrAppend)
            else r.hasError == c.hasError && r.errorFile == c.errorFile && r.appendError == c.appendError
    decreases s
  {
    if s.Cons? && s.head.kind == Word {
      ErrorRead(s.tail, c.(args := c.args + [s.head.text]));
    } else if s.Cons? && IsRedirection(s.head.kind) {
      ErrorRead(s.tail.tail, Redirected(c, s.head.kind, s.tail.head.text));
    }
  }

  /** The command read is the one its symbols spell: later redirections win, and words keep their order. */
  lemma {:induction false} CommandSpelled(s: List<Symbol>)
    requires CommandFrom(s, NO_COMMAND).Good?
    ensures Spells(s, CommandFrom(s, NO_COMMAND).value)
  {
    ArgsRead(s, NO_COMMAND);
    InputRead(s, NO_COMMAND);
    OutputRead(s, NO_COMMAND);
    ErrorRead(s, NO_COMMAND);
  }

  /** Reads a pipeline from `s` after the commands `cs`, whose last pipe has been read. */
  function PipelineFrom(s: List<Symbol>, cs: seq<Command>): (p: Parsed<seq<Command>>)
    ensures p.Good? ==> p.rest < s
    ensures p.Bad? ==> p.message != ""
    decreases s
  {
    match CommandFrom(s, NO_COMMAND)
    case Bad(m) => Bad(m)
    case Good(c, rest) =>
      match rest
      case Cons(Symbol(Pipe, _), tail) =>
        if tail.Nil? || Terminates(tail.head.kind) then Bad(NO_COMMAND_AFTER_PIPE) else PipelineFrom(tail, cs + [c])
      case _ => Good(cs + [c], rest)
  }

  /** The defining equation of `PipelineFrom`. */
  lemma {:induction false} PipelineUnfolds(s: List<Symbol>, cs: seq<Command>)
    ensures PipelineFrom(s, cs) ==
            match CommandFrom(s, NO_COMMAND)
            case Bad(m) => Bad(m)
            case Good(c, rest) =>
              if rest.Cons? && rest.head.kind == Pipe then
                if rest.tail.Nil? || Terminates(rest.tail.head.kind) then Bad(NO_COMMAND_AFTER_PIPE)
                else PipelineFrom(rest.tail, cs + [c])
              else Good(cs + [c], rest)
  {
  }

  function After(step: PipelineStep, o: Outcome): Outcome {
    Outcome(Cons(step, o.steps), o.error)
  }

  /** Reads steps from `s`, the first one joined by `connector`. */
  function StepsFrom(s: List<Symbol>, connector: ChainOperator): Outcome
    decreases s
  {
    match PipelineFrom(s, [])
    case Bad(m) => Outcome(Nil, m)
    case Good(cs, rest) =>
      var step := PipelineStep(connector, Pipeline(cs, false));
      match rest
      case Nil => Outcome(Cons(step, Nil), "")
      case Cons(Symbol(kind, _), tail) =>
        match kind
        case Background =>
          var step' := PipelineStep(connector, Pipeline(cs, true));
          if AtEnd(tail) then Outcome(Cons(step', Nil), "") else After(step', StepsFrom(tail, Always))
        case AndIf =>
          if AtEnd(tail) then Outcome(Cons(step, Nil), NO_COMMAND_AFTER_OPERATOR)
          else After(step, StepsFrom(tail, And))
        case OrIf =>
          if AtEnd(tail) then Outcome(Cons(step, Nil), NO_COMMAND_AFTER_OPERATOR)
          else After(step, StepsFrom(tail, Or))
        case Semicolon =>
          if AtEnd(tail) then Outcome(Cons(step, Nil), NO_COMMAND_AFTER_OPERATOR)
          else After(step, StepsFrom(tail, Always))
        case End => Outcome(Cons(step, Nil), "")
        case _ => Outcome(Cons(step, Nil), UNEXPECTED_TOKEN)
  }

  /** Parsing of the tokens up to the first end marker. */
  function ParsedFrom(s: List<Symbol>): Outcome {
    if AtEnd(s) then Outcome(Nil, "") else StepsFrom(s, Always)
  }

  /** The cursor never leaves the last token, so the parser reads it again; a last word it would read forever. */
  function Pad(last: Token): List<Symbol> {
    match last.kind
    case End => Nil
    case Word => Cons(SymbolOf(last), Cons(Symbol(End, ""), Nil))
    case _ => Cons(SymbolOf(last), Nil)
  }

  /** The symbols a parser over `tokens` gets to see. */
  function Seen(tokens: seq<Token>): List<Symbol>
    requires tokens != []
  {
    Append(Erase(Listed(tokens, 0)), Pad(tokens[|tokens| - 1]))
  }

  /** The parser comes to an end: it does not reach a last word, which it would read without end. */
  predicate Ends(tokens: seq<Token>) {
    tokens != [] && tokens[|tokens| - 1].kind == Word ==> ParsedFrom(Seen(tokens)).error != ""
  }

  lemma {:induction false} SeenEnded(tokens: seq<Token>)
    requires tokens != [] && tokens[|tokens| - 1].kind == End
    ensures Seen(tokens) == Erase(Listed(tokens, 0)) && Ends(tokens)
  {
    AppendNil(Erase(Listed(tokens, 0)));
  }

  lemma {:induction false} LastListed(tokens: seq<Token>)
    requires tokens != []
    ensures var last := |tokens| - 1;
            Append(Erase(Listed(tokens, last)), Pad(tokens[last])) == Cons(SymbolOf(tokens[last]), Pad(tokens[last]))
  {
    var last := |tokens| - 1;
    assert Listed(tokens, last) == Cons(tokens[last], Nil);
    assert Erase(Listed(tokens, last)) == Cons(SymbolOf(tokens[last]), Nil);
  }

  lemma {:induction false} LastWordReached(word: Symbol, c: Command)
    requires word.kind == Word
    ensures var end := Cons(Symbol(End, ""), Nil);
            var once, twice := Cons(word, end), Cons(word, Cons(word, end));
            && CommandFrom(once, c).Good? && AtEnd(CommandFrom(once, c).rest)
            && CommandFrom(twice, c).Good? && AtEnd(CommandFrom(twice, c).rest)
  {
    var end := Cons(Symbol(End, ""), Nil);
    var c' := c.(args := c.args + [word.text]);
    assert CommandFrom(end, c') == Good(c', end);
    var c'' := c'.(args := c'.args + [word.text]);
    assert CommandFrom(end, c'') == Good(c'', end);
    assert CommandFrom(Cons(word, end), c') == CommandFrom(end, c'');
  }

  /** Reading stopped before the end. */
  predicate Short<T>(p: Parsed<T>) {
    p.Bad? || !AtEnd(p.rest)
  }

  class Parser {
    const tokens: seq<Token>
    var index: nat
    var error: string
    ghost var stuck: bool   // the last token has been advanced over, to no effect

    ghost predicate Valid()
      reads this
    {
      && tokens != [] && index < |tokens|
      && (stuck ==> index == |tokens| - 1 && tokens[index].kind != End && tokens[index].kind != Word)
    }

    /** The symbols still to be read. */
    ghost function Remaining(): List<Symbol>
      requires Valid()
      reads this
    {
      var pad := Pad(tokens[|tokens| - 1]);
      if stuck then pad else Append(Erase(Listed(tokens, index)), pad)
    }

    ghost function Left(): nat
      requires Valid()
      reads this
    {
      |tokens| - index + if stuck then 0 else 1
    }

    /** Advancing gets further from here. */
    ghost predicate Steppable()
      requires Valid()
      reads this
    {
      !stuck && tokens[index].kind != End && (index + 1 == |tokens| ==> tokens[index].kind != Word)
    }

    /** A parser that has run into the last token stands at one that ends a command. */
    ghost predicate Settled()
      requires Valid()
      reads this
    {
      stuck ==> Terminates(tokens[index].kind)
    }

    /** The last token is no word, or reading `p` stops before it. */
    ghost predicate Stops<T>(p: Parsed<T>)
      requires Valid()
      reads this
    {
      tokens[|tokens| - 1].kind == Word ==> Short(p)
    }

    constructor (tokens: seq<Token>)
      requires tokens != []
      ensures Valid() && !stuck && this.tokens == tokens && index == 0 && Remaining() == Seen(tokens)
    {
      this.tokens := tokens;
      index, error, stuck := 0, "", false;
    }

    function Peek(): (t: Token)
      requires Valid()
      reads this
      ensures Remaining().Cons? && Remaining().head == SymbolOf(t)
    {
      tokens[index]
    }

    /** Steps over a token; the cursor never leaves the last one. */
    method Advance()
      requires Valid()
      modifies this`index, this`stuck
      ensures Valid() && index == if old(index) + 1 < |tokens| then old(index) + 1 else old(index)
      ensures old(Steppable()) ==> Remaining() == old(Remaining()).tail && Left() < old(Left())
      ensures stuck ==> old(index) + 1 == |tokens|
    {
      if index + 1 == |tokens| {
        LastListed(tokens);
      }
      if index + 1 < |tokens| {
        index := index + 1;
      } else {
        stuck := tokens[index].kind != End && tokens[index].kind != Word;
      }
    }

    lemma {:induction false} WordSteppable(c: Command)
      requires Valid() && tokens[index].kind == Word
      requires Stops(CommandFrom(Remaining(), c)) || Stops(CommandFrom(Remaining().tail, c))
      ensures Steppable()
    {
      if index + 1 == |tokens| {
        LastListed(tokens);
        LastWordReached(SymbolOf(tokens[index]), c);
      }
    }

    method Fail(message: string) returns (ok: bool)
      modifies this`error
      ensures !ok && error == message
    {
      error := message;
      return false;
    }

    method ParseCommand() returns (ok: bool, command: Command)
      requires Valid() && Settled() && Stops(CommandFrom(Remaining(), NO_COMMAND))
      modifies this`index, this`error, this`stuck
      ensures Valid() && Left() <= old(Left())
      ensures match CommandFrom(old(Remaining()), NO_COMMAND)
              case Good(c, rest) => ok && command == c && Remaining() == rest && !stuck && Left() < old(Left())
              case Bad(m) => !ok && error == m
      ensures ok ==> Spells(old(Remaining()), command)
    {
      hide Redirected, Spells;
      command := NO_COMMAND;
      var sawWord := false;
      ghost var result := CommandFrom(Remaining(), NO_COMMAND);
      while true
        invariant Valid() && Settled() && Left() <= old(Left())
        invariant sawWord == (command.args != [])
        invariant sawWord ==> !stuck && Left() < old(Left())
        invariant CommandFrom(Remaining(), command) == result
        decreases Left()
      {
        var token := Peek();
        if token.kind == Word {
          WordSteppable(command);
          command := command.(args := command.args + [token.text]);
          sawWord := true;
          Advance();
          continue;
        }
        if IsRedirection(token.kind) {
          var redirect := token.kind;
          Advance();
          ghost var tail := Remaining();
          if Peek().kind != Word {
            ok := Fail(NO_FILENAME);
            return;
          }
          var filename := Peek().text;
          assert tail.head == Symbol(Word, filename);
          WordSteppable(Redirected(command, redirect, filename));
          Advance();
          command := Redirected(command, redirect, filename);
          continue;
        }
        break;
      }
      if !sawWord {
        ok := Fail(NO_COMMAND_ERROR);
        return;
      }
      CommandSpelled(old(Remaining()));
      ok := true;
    }

    method ParsePipeline() returns (ok: bool, commands: seq<Command>)
      requires Valid() && Settled() && Stops(PipelineFrom(Remaining(), []))
      modifies this`index, this`error, this`stuck
      ensures Valid() && Left() <= old(Left())
      ensures match PipelineFrom(old(Remaining()), [])
              case Good(cs, rest) => ok && commands == cs && Remaining() == rest && !stuck && Left() < old(Left())
              case Bad(m) => !ok && error == m
    {
      hide CommandFrom, PipelineFrom, Append, Erase, Listed, Pad, Spells;
      PipelineUnfolds(Remaining(), []);
      commands := [];
      var good, command := ParseCommand();
      if !good {
        return false, commands;
      }
      ghost var start, before := old(Remaining()), [];
      commands := [command];
      while Peek().kind == Pipe
        invariant Valid() && !stuck && Left() < old(Left())
        invariant commands == before + [command] && CommandFrom(start, NO_COMMAND) == Good(command, Remaining())
        invariant PipelineFrom(old(Remaining()), []) == PipelineFrom(start, before)
        decreases Left()
      {
        PipelineUnfolds(start, before);
        Advance();
        if Terminates(Peek().kind) {
          ok := Fail(NO_COMMAND_AFTER_PIPE);
          return;
        }
        start, before := Remaining(), commands;
        PipelineUnfolds(start, before);
        good, command := ParseCommand();
        if !good {
          return false, commands;
        }
        commands := commands + [command];
      }
      PipelineUnfolds(start, before);
      ok := true;
    }

    method Run() returns (r: ParseResult)
      requires Valid() && !stuck && (tokens[|tokens| - 1].kind == Word ==> ParsedFrom(Remaining()).error != "")
      modifies this`index, this`error, this`stuck
      ensures ParsedFrom(old(Remaining())) == Outcome(Listed(r.steps, 0), r.error)
    {
      hide PipelineFrom, CommandFrom, Append, Erase, Pad, Push, Spells;
      r := ParseResult([], "");
      if Peek().kind == End {
        return;
      }
      ghost var whole := old(Remaining());
      NothingPaid(whole);
      var connector := Always;
      while Peek().kind != End
        invariant Valid() && Settled() && Peek().kind != End
        invariant Owes(whole, r, Remaining(), connector)
        decreases Left()
      {
        ghost var s := Remaining();
        var ok, commands := ParsePipeline();
        if !ok {
          PushAll(r.steps);
          return r.(error := error);
        }
        if Peek().kind == Background {
          var step := PipelineStep(connector, Pipeline(commands, true));
          Advance();
          Paid(whole, r, s, connector, step);
          r := r.(steps := r.steps + [step]);
          connector := Always;
          if Peek().kind == End {
            PushAll(r.steps);
            return;
          }
          continue;
        }
        var step := PipelineStep(connector, Pipeline(commands, false));
        ghost var rest := Remaining();
        Paid(whole, r, s, connector, step);
        r := r.(steps := r.steps + [step]);
        match Peek().kind {
          case AndIf => connector := And; Advance();
          case OrIf => connector := Or; Advance();
          case Semicolon => connector := Always; Advance();
          case End =>
            PushAll(r.steps);
            return;
          case _ =>
            PipelineEnds(s, []);
            assert false;
        }
        if Peek().kind == End {
          PushAll(r.steps);
          return r.(error := NO_COMMAND_AFTER_OPERATOR);
        }
      }
    }
  }

  /** The steps already pushed, followed by what parsing `s` still yields, make up the whole outcome. */
  ghost predicate Owes(whole: List<Symbol>, r: ParseResult, s: List<Symbol>, connector: ChainOperator) {
    r.error == "" &&
    var Outcome(steps, error) := StepsFrom(s, connector);
    ParsedFrom(whole) == Outcome(Push(r.steps, steps), error)
  }

  lemma {:induction false} NothingPaid(whole: List<Symbol>)
    requires !AtEnd(whole)
    ensures Owes(whole, ParseResult([], ""), whole, Always)
  {
  }

  /** Pushing the step just read leaves only what follows it to be paid. */
  lemma {:induction false} Paid(
    whole: List<Symbol>, r: ParseResult, s: List<Symbol>, connector: ChainOperator, step: PipelineStep)
    requires Owes(whole, r, s, connector)
    requires StepsFrom(s, connector).steps.Cons? && StepsFrom(s, connector).steps.head == step
    ensures ParsedFrom(whole) ==
            Outcome(Push(r.steps + [step], StepsFrom(s, connector).steps.tail), StepsFrom(s, connector).error)
  {
    PushLast(r.steps, step, StepsFrom(s, connector).steps.tail);
  }

  lemma {:induction false} CommandEnds(s: List<Symbol>, c: Command)
    requires CommandFrom(s, c).Good? && CommandFrom(s, c).rest.Cons?
    ensures Terminates(CommandFrom(s, c).rest.head.kind)
    decreases s
  {
    match s
    case Cons(Symbol(Word, text), tail) => CommandEnds(tail, c.(args := c.args + [text]));
    case Cons(Symbol(kind, _), tail) =>
      if IsRedirection(kind) {
        CommandEnds(tail.tail, Redirected(c, kind, tail.head.text));
      }
  }

  /** A pipeline stops only before a list operator, `&` or the end, so no other token is ever unexpected. */
  lemma {:induction false} PipelineEnds(s: List<Symbol>, cs: seq<Command>)
    requires PipelineFrom(s, cs).Good? && PipelineFrom(s, cs).rest.Cons?
    ensures Terminates(PipelineFrom(s, cs).rest.head.kind) && PipelineFrom(s, cs).rest.head.kind != Pipe
    decreases s
  {
    var Good(c, rest) := CommandFrom(s, NO_COMMAND);
    CommandEnds(s, NO_COMMAND);
    if rest.head.kind == Pipe {
      PipelineEnds(rest.tail, cs + [c]);
    }
  }

  lemma {:induction false} ArgsOnlyGrow(s: List<Symbol>, c: Command)
    requires CommandFrom(s, c).Good?
    ensures c.args <= CommandFrom(s, c).value.args
    decreases s
  {
    match s
    case Nil =>
    case Cons(Symbol(Word, text), tail) => ArgsOnlyGrow(tail, c.(args := c.args + [text]));
    case Cons(Symbol(kind, _), tail) =>
      if IsRedirection(kind) {
        ArgsOnlyGrow(tail.tail, Redirected(c, kind, tail.head.text));
      }
  }

  lemma {:induction false} CommandsOnlyGrow(s: List<Symbol>, before: seq<Command>)
    requires PipelineFrom(s, before).Good?
    ensures CommandFrom(s, NO_COMMAND).Good?
    ensures before + [CommandFrom(s, NO_COMMAND).value] <= PipelineFrom(s, before).value
    decreases s
  {
    var Good(c, rest) := CommandFrom(s, NO_COMMAND);
    if rest.Cons? && rest.head.kind == Pipe {
      CommandsOnlyGrow(rest.tail, before + [c]);
    }
  }

  /** Parses a token list on which the parser comes to an end; any list that `Lex` returns is one. */
  method Parse(tokens: seq<Token>) returns (r: ParseResult)
    requires Ends(tokens)
    ensures if tokens == [] then r == ParseResult([], EMPTY_STREAM)
            else ParsedFrom(Seen(tokens)) == Outcome(Listed(r.steps, 0), r.error)
  {
    if tokens == [] {
      return ParseResult([], EMPTY_STREAM);
    }
    var parser := new Parser(tokens);
    r := parser.Run();
  }
}
