/**
  The grammar of command lists, stated as trees and the symbols they yield. `ParseExact` shows that the parser
  accepts exactly the yields of well-formed trees and returns the plan every such tree means; `AcceptedPlan` says
  which plans it returns, and `PrintThenParse` that printing any of those and parsing again restores it.
 */
module Grammar {
  import opened Syntax
  import opened Parser

  datatype Item = Arg(text: string) | Redirect(kind: TokenType, file: string)

  /** A pipeline with the token that follows it: a list operator, `&`, or the end marker. */
  datatype Entry = Entry(commands: List<List<Item>>, separator: TokenType)

  // ---------- what a tree yields, in front of `rest` ----------

  function ItemsYield(items: List<Item>, rest: List<Symbol>): List<Symbol> {
    match items
    case Nil => rest
    case Cons(Arg(text), tail) => Cons(Symbol(Word, text), ItemsYield(tail, rest))
    case Cons(Redirect(kind, file), tail) => Cons(Symbol(kind, ""), Cons(Symbol(Word, file), ItemsYield(tail, rest)))
  }

  function PipelineYield(cs: List<List<Item>>, rest: List<Symbol>): List<Symbol> {
    match cs
    case Nil => rest
    case Cons(c, Nil) => ItemsYield(c, rest)
    case Cons(c, tail) => ItemsYield(c, Cons(Symbol(Pipe, ""), PipelineYield(tail, rest)))
  }

  const END_ONLY := Cons(Symbol(End, ""), Nil)

  function PlanYield(es: List<Entry>): List<Symbol> {
    match es
    case Nil => END_ONLY
    case Cons(Entry(cs, separator), tail) =>
      PipelineYield(cs, if separator == End then END_ONLY else Cons(Symbol(separator, ""), PlanYield(tail)))
  }

  // ---------- which trees are well formed ----------

  predicate RedirectsOnly(items: List<Item>) {
    items.Cons? ==> (items.head.Redirect? ==> IsRedirection(items.head.kind)) && RedirectsOnly(items.tail)
  }

  predicate HasArg(items: List<Item>) {
    items.Cons? && (items.head.Arg? || HasArg(items.tail))
  }

  predicate ValidPipeline(cs: List<List<Item>>) {
    cs.Cons? && RedirectsOnly(cs.head) && HasArg(cs.head) && (cs.tail.Cons? ==> ValidPipeline(cs.tail))
  }

  /** A list operator needs a pipeline after it; `&` may end the list. */
  predicate ValidPlan(es: List<Entry>) {
    match es
    case Nil => true
    case Cons(Entry(cs, separator), tail) =>
      && ValidPipeline(cs) && ValidPlan(tail)
      && match separator
         case AndIf => tail.Cons?
         case OrIf => tail.Cons?
         case Semicolon => tail.Cons?
         case Background => true
         case End => tail.Nil?
         case _ => false
  }

  // ---------- what a tree means ----------

  function CommandOf(items: List<Item>, c: Command): Command {
    match items
    case Nil => c
    case Cons(Arg(text), tail) => CommandOf(tail, c.(args := c.args + [text]))
    case Cons(Redirect(kind, file), tail) => CommandOf(tail, Redirected(c, kind, file))
  }

  function PipelineOf(cs: List<List<Item>>, before: seq<Command>): seq<Command> {
    match cs
    case Nil => before
    case Cons(c, tail) => PipelineOf(tail, before + [CommandOf(c, NO_COMMAND)])
  }

  function ConnectorAfter(separator: TokenType): ChainOperator {
    match separator case AndIf => And case OrIf => Or case _ => Always
  }

  function PlanOf(es: List<Entry>, connector: ChainOperator): List<PipelineStep> {
    match es
    case Nil => Nil
    case Cons(Entry(cs, separator), tail) =>
      Cons(PipelineStep(connector, Pipeline(PipelineOf(cs, []), separator == Background)),
           PlanOf(tail, ConnectorAfter(separator)))
  }

  // ---------- the meaning of a command, said apart from the order in which it is built ----------

  function TextsOf(items: List<Item>): seq<string> {
    match items
    case Nil => []
    case Cons(Arg(text), tail) => [text] + TextsOf(tail)
    case Cons(Redirect(_, _), tail) => TextsOf(tail)
  }

  /** The last redirection that is of one of two kinds. */
  function LastItem(items: List<Item>, kind: TokenType, other: TokenType): Option<Item> {
    match items
    case Nil => None
    case Cons(item, tail) =>
      var later := LastItem(tail, kind, other);
      if later.Some? then later
      else if item.Redirect? && (item.kind == kind || item.kind == other) then Some(item) else None
  }

  function FileOf(item: Option<Item>): string {
    match item case Some(Redirect(_, file)) => file case _ => ""
  }

  predicate Appends(item: Option<Item>, kind: TokenType) {
    item.Some? && item.value.Redirect? && item.value.kind == kind
  }

  /** The redirection an item stands for. */
  function Target(item: Option<Item>): Option<(TokenType, string)> {
    match item case Some(Redirect(kind, file)) => Some((kind, file)) case _ => None
  }

  lemma {:induction false} WordsSpell(items: List<Item>, rest: List<Symbol>)
    requires RedirectsOnly(items) && rest.Cons? && Terminates(rest.head.kind)
    ensures WordsOf(ItemsYield(items, rest)) == TextsOf(items)
  {
    if items.Cons? {
      WordsSpell(items.tail, rest);
    }
  }

  lemma {:induction false} RedirectsSpell(items: List<Item>, rest: List<Symbol>, kind: TokenType, other: TokenType)
    requires RedirectsOnly(items) && rest.Cons? && Terminates(rest.head.kind)
    ensures LastOf(ItemsYield(items, rest), kind, other) == Target(LastItem(items, kind, other))
  {
    hide LastOf;
    match items
    case Nil => LastOfEnd(rest, kind, other);
    case Cons(Arg(text), tail) =>
      RedirectsSpell(tail, rest, kind, other);
      LastOfWord(text, ItemsYield(tail, rest), kind, other);
    case Cons(Redirect(k, file), tail) =>
      RedirectsSpell(tail, rest, kind, other);
      OnlyRedirects(tail, kind, other);
      LastOfRedirect(k, file, ItemsYield(tail, rest), kind, other);
  }

  /**
    A command's arguments are its words in order. Each of its streams is redirected if some item redirects it, and then
    to the file of the last such item, which also says whether to append.
   */
  lemma {:induction false} CommandMeaning(items: List<Item>)
    requires RedirectsOnly(items) && HasArg(items)
    ensures var c := CommandOf(items, NO_COMMAND);
            var input := LastItem(items, RedirectIn, RedirectIn);
            var output := LastItem(items, RedirectOut, RedirectAppend);
            var error := LastItem(items, RedirectErr, RedirectErrAppend);
            && c.args == TextsOf(items)
            && c.hasInput == input.Some? && c.inputFile == FileOf(input)
            && c.hasOutput == output.Some? && c.outputFile == FileOf(output)
            && c.appendOutput == Appends(output, RedirectAppend)
            && c.hasError == error.Some? && c.errorFile == FileOf(error)
            && c.appendError == Appends(error, RedirectErrAppend)
  {
    hide LastItem, CommandOf, CommandFrom;
    var s := ItemsYield(items, END_ONLY);
    CommandParsed(items, NO_COMMAND, END_ONLY);
    CommandSpelled(s);
    WordsSpell(items, END_ONLY);
    RedirectsSpell(items, END_ONLY, RedirectIn, RedirectIn);
    RedirectsSpell(items, END_ONLY, RedirectOut, RedirectAppend);
    RedirectsSpell(items, END_ONLY, RedirectErr, RedirectErrAppend);
    OnlyRedirects(items, RedirectIn, RedirectIn);
    OnlyRedirects(items, RedirectOut, RedirectAppend);
    OnlyRedirects(items, RedirectErr, RedirectErrAppend);
  }

  lemma {:induction false} OnlyRedirects(items: List<Item>, kind: TokenType, other: TokenType)
    ensures LastItem(items, kind, other).Some? ==> LastItem(items, kind, other).value.Redirect?
  {
    if items.Cons? {
      OnlyRedirects(items.tail, kind, other);
    }
  }

  // ---------- the yield of every well-formed tree parses to its meaning ----------

  lemma {:induction false} CommandParsed(items: List<Item>, c: Command, rest: List<Symbol>)
    requires RedirectsOnly(items) && (HasArg(items) || c.args != [])
    requires rest.Cons? && Terminates(rest.head.kind)
    ensures CommandFrom(ItemsYield(items, rest), c) == Good(CommandOf(items, c), rest)
  {
    match items
    case Nil =>
    case Cons(Arg(text), tail) => CommandParsed(tail, c.(args := c.args + [text]), rest);
    case Cons(Redirect(kind, file), tail) => CommandParsed(tail, Redirected(c, kind, file), rest);
  }

  lemma {:induction false} YieldStarts(items: List<Item>, rest: List<Symbol>)
    requires RedirectsOnly(items) && HasArg(items)
    ensures ItemsYield(items, rest).Cons? && !Terminates(ItemsYield(items, rest).head.kind)
  {
  }

  lemma {:induction false} PipelineParsed(cs: List<List<Item>>, before: seq<Command>, rest: List<Symbol>)
    requires ValidPipeline(cs) && rest.Cons? && Terminates(rest.head.kind) && rest.head.kind != Pipe
    ensures PipelineFrom(PipelineYield(cs, rest), before) == Good(PipelineOf(cs, before), rest)
    ensures !AtEnd(PipelineYield(cs, rest))
  {
    var Cons(c, tail) := cs;
    var after := if tail.Nil? then rest else Cons(Symbol(Pipe, ""), PipelineYield(tail, rest));
    CommandParsed(c, NO_COMMAND, after);
    YieldStarts(c, after);
    if tail.Cons? {
      YieldStarts(tail.head, if tail.tail.Nil? then rest else Cons(Symbol(Pipe, ""), PipelineYield(tail.tail, rest)));
      PipelineParsed(tail, before + [CommandOf(c, NO_COMMAND)], rest);
    }
  }

  lemma {:induction false} PlanParsed(es: List<Entry>, connector: ChainOperator)
    requires ValidPlan(es) && es.Cons?
    ensures StepsFrom(PlanYield(es), connector) == Outcome(PlanOf(es, connector), "")
    ensures !AtEnd(PlanYield(es))
  {
    var Cons(Entry(cs, separator), tail) := es;
    PipelineParsed(cs, [], if separator == End then END_ONLY else Cons(Symbol(separator, ""), PlanYield(tail)));
    if tail.Cons? {
      PlanParsed(tail, ConnectorAfter(separator));
    }
  }

  // ---------- everything the parser accepts is the yield of a well-formed tree ----------

  /** A stream as the lexer leaves it: one end marker, in last place, and text on words only. */
  predicate Proper(s: List<Symbol>) {
    s.Cons? && (s.head.kind != Word ==> s.head.text == "") &&
    if s.head.kind == End then s.tail.Nil? else Proper(s.tail)
  }

  lemma {:induction false} CommandTree(s: List<Symbol>, c: Command) returns (items: List<Item>)
    requires Proper(s) && CommandFrom(s, c).Good?
    ensures RedirectsOnly(items) && (HasArg(items) || c.args != [])
    ensures var rest := CommandFrom(s, c).rest;
            s == ItemsYield(items, rest) && Proper(rest) && Terminates(rest.head.kind)
    decreases s
  {
    var Cons(Symbol(kind, text), tail) := s;
    if kind == Word {
      items := CommandTree(tail, c.(args := c.args + [text]));
      items := Cons(Arg(text), items);
    } else if IsRedirection(kind) {
      items := CommandTree(tail.tail, Redirected(c, kind, tail.head.text));
      items := Cons(Redirect(kind, tail.head.text), items);
    } else {
      items := Nil;
    }
  }

  lemma {:induction false} PipelineTree(s: List<Symbol>, before: seq<Command>) returns (cs: List<List<Item>>)
    requires Proper(s) && PipelineFrom(s, before).Good?
    ensures ValidPipeline(cs)
    ensures var rest := PipelineFrom(s, before).rest;
            s == PipelineYield(cs, rest) && Proper(rest) && Terminates(rest.head.kind) && rest.head.kind != Pipe
    decreases s
  {
    var Good(c, rest) := CommandFrom(s, NO_COMMAND);
    var items := CommandTree(s, NO_COMMAND);
    if rest.head.kind == Pipe {
      cs := PipelineTree(rest.tail, before + [c]);
      cs := Cons(items, cs);
    } else {
      cs := Cons(items, Nil);
    }
  }

  lemma {:induction false} PlanTree(s: List<Symbol>, connector: ChainOperator) returns (es: List<Entry>)
    requires Proper(s) && StepsFrom(s, connector).error == ""
    ensures ValidPlan(es) && es.Cons? && PlanYield(es) == s
    decreases s
  {
    var Good(_, rest) := PipelineFrom(s, []);
    var cs := PipelineTree(s, []);
    var separator := rest.head.kind;
    if separator == End {
      es := Cons(Entry(cs, End), Nil);
    } else if AtEnd(rest.tail) {
      es := Cons(Entry(cs, separator), Nil);
    } else {
      es := PlanTree(rest.tail, ConnectorAfter(separator));
      es := Cons(Entry(cs, separator), es);
    }
  }

  /** `es` is a parse tree of the stream `s`. */
  ghost predicate Derives(es: List<Entry>, s: List<Symbol>) {
    ValidPlan(es) && PlanYield(es) == s
  }

  /** The parser accepts a stream exactly when it has a parse tree, and then returns the plan every tree means. */
  lemma {:induction false} ParseExact(s: List<Symbol>)
    requires Proper(s)
    ensures ParsedFrom(s).error == "" <==> exists es :: Derives(es, s)
    ensures forall es | Derives(es, s) :: ParsedFrom(s) == Outcome(PlanOf(es, Always), "")
  {
    forall es | Derives(es, s)
      ensures ParsedFrom(s) == Outcome(PlanOf(es, Always), "")
    {
      if es.Cons? {
        PlanParsed(es, Always);
      }
    }
    if ParsedFrom(s).error == "" {
      if AtEnd(s) {
        assert Derives(Nil, s);
      } else {
        var es := PlanTree(s, Always);
        assert Derives(es, s);
      }
    }
  }

  // ---------- the plans the parser returns ----------

  predicate ValidCommands(cs: seq<Command>) {
    cs != [] && forall c | c in cs :: c.args != []
  }

  /** No empty pipeline, no empty command, and a step after `&` always runs. */
  predicate ValidSteps(steps: List<PipelineStep>) {
    match steps
    case Nil => true
    case Cons(step, tail) =>
      && ValidCommands(step.pipeline.commands)
      && (step.pipeline.background && tail.Cons? ==> tail.head.connector == Always)
      && ValidSteps(tail)
  }

  /** Unused redirection fields hold their defaults. */
  predicate Canonical(c: Command) {
    && (!c.hasInput ==> c.inputFile == "")
    && (!c.hasOutput ==> c.outputFile == "" && !c.appendOutput)
    && (!c.hasError ==> c.errorFile == "" && !c.appendError)
  }

  predicate CanonicalSteps(steps: List<PipelineStep>) {
    steps.Cons? ==> (forall c | c in steps.head.pipeline.commands :: Canonical(c)) && CanonicalSteps(steps.tail)
  }

  lemma {:induction false} CommandHasArgs(items: List<Item>, c: Command)
    requires HasArg(items) || c.args != []
    ensures CommandOf(items, c).args != []
  {
    match items
    case Nil =>
    case Cons(Arg(text), tail) => CommandHasArgs(tail, c.(args := c.args + [text]));
    case Cons(Redirect(kind, file), tail) => CommandHasArgs(tail, Redirected(c, kind, file));
  }

  lemma {:induction false} PipelineHasCommands(cs: List<List<Item>>, before: seq<Command>)
    requires cs.Cons? ==> ValidPipeline(cs)
    requires cs.Nil? ==> before != []
    requires forall c | c in before :: c.args != []
    ensures ValidCommands(PipelineOf(cs, before))
  {
    if cs.Cons? {
      CommandHasArgs(cs.head, NO_COMMAND);
      PipelineHasCommands(cs.tail, before + [CommandOf(cs.head, NO_COMMAND)]);
    }
  }

  lemma {:induction false} PlanIsValid(es: List<Entry>, connector: ChainOperator)
    requires ValidPlan(es)
    ensures ValidSteps(PlanOf(es, connector))
  {
    if es.Cons? {
      PipelineHasCommands(es.head.commands, []);
      PlanIsValid(es.tail, ConnectorAfter(es.head.separator));
    }
  }

  lemma {:induction false} CommandCanonical(items: List<Item>, c: Command)
    requires Canonical(c)
    ensures Canonical(CommandOf(items, c))
  {
    match items
    case Nil =>
    case Cons(Arg(text), tail) => CommandCanonical(tail, c.(args := c.args + [text]));
    case Cons(Redirect(kind, file), tail) => CommandCanonical(tail, Redirected(c, kind, file));
  }

  lemma {:induction false} PipelineCanonical(cs: List<List<Item>>, before: seq<Command>)
    requires forall c | c in before :: Canonical(c)
    ensures forall c | c in PipelineOf(cs, before) :: Canonical(c)
  {
    if cs.Cons? {
      CommandCanonical(cs.head, NO_COMMAND);
      PipelineCanonical(cs.tail, before + [CommandOf(cs.head, NO_COMMAND)]);
    }
  }

  lemma {:induction false} PlanCanonical(es: List<Entry>, connector: ChainOperator)
    ensures CanonicalSteps(PlanOf(es, connector))
  {
    if es.Cons? {
      PipelineCanonical(es.head.commands, []);
      PlanCanonical(es.tail, ConnectorAfter(es.head.separator));
    }
  }

  /** The plans the parser returns: the first step always runs, and so does one after `&`; nothing is empty or stray. */
  predicate Acceptable(steps: List<PipelineStep>) {
    ValidSteps(steps) && CanonicalSteps(steps) && (steps.Cons? ==> steps.head.connector == Always)
  }

  /** What every accepted line guarantees the executor. */
  lemma {:induction false} AcceptedPlan(s: List<Symbol>)
    requires Proper(s) && ParsedFrom(s).error == ""
    ensures Acceptable(ParsedFrom(s).steps)
  {
    ParseExact(s);
    var es :| Derives(es, s);
    PlanIsValid(es, Always);
    PlanCanonical(es, Always);
  }

  // ---------- every such plan can be written down ----------

  function ArgItems(args: seq<string>, i: nat, rest: List<Item>): List<Item>
    requires i <= |args|
    decreases |args| - i
  {
    if i == |args| then rest else Cons(Arg(args[i]), ArgItems(args, i + 1, rest))
  }

  function ErrorItems(c: Command): List<Item> {
    var kind := if c.appendError then RedirectErrAppend else RedirectErr;
    if c.hasError then Cons(Redirect(kind, c.errorFile), Nil) else Nil
  }

  function OutputItems(c: Command): List<Item> {
    var kind := if c.appendOutput then RedirectAppend else RedirectOut;
    if c.hasOutput then Cons(Redirect(kind, c.outputFile), ErrorItems(c))
    else ErrorItems(c)
  }

  function InputItems(c: Command): List<Item> {
    if c.hasInput then Cons(Redirect(RedirectIn, c.inputFile), OutputItems(c)) else OutputItems(c)
  }

  /** The arguments of a command, then its redirections in the order input, output, error. */
  function ItemsOf(c: Command): List<Item> {
    ArgItems(c.args, 0, InputItems(c))
  }

  function TreesOf(cs: seq<Command>, i: nat): List<List<Item>>
    requires i <= |cs|
    decreases |cs| - i
  {
    if i == |cs| then Nil else Cons(ItemsOf(cs[i]), TreesOf(cs, i + 1))
  }

  function SeparatorBefore(next: List<PipelineStep>, background: bool): TokenType {
    if background then Background
    else match next
      case Nil => End
      case Cons(step, _) => match step.connector case Always => Semicolon case And => AndIf case Or => OrIf
  }

  function EntriesOf(steps: List<PipelineStep>): List<Entry> {
    match steps
    case Nil => Nil
    case Cons(step, tail) =>
      Cons(Entry(TreesOf(step.pipeline.commands, 0), SeparatorBefore(tail, step.pipeline.background)), EntriesOf(tail))
  }

  lemma {:induction false} ArgItemsMean(args: seq<string>, i: nat, rest: List<Item>, c: Command)
    requires i <= |args| && c.args == args[..i]
    ensures CommandOf(ArgItems(args, i, rest), c) == CommandOf(rest, c.(args := args))
    ensures RedirectsOnly(rest) ==> RedirectsOnly(ArgItems(args, i, rest))
    ensures i < |args| ==> HasArg(ArgItems(args, i, rest))
    decreases |args| - i
  {
    if i < |args| {
      assert args[..i] + [args[i]] == args[..i + 1];
      ArgItemsMean(args, i + 1, rest, c.(args := args[..i + 1]));
    } else {
      assert args[..i] == args;
    }
  }

  lemma {:induction false} RedirectItemsMean(c: Command)
    requires Canonical(c)
    ensures CommandOf(InputItems(c), NO_COMMAND.(args := c.args)) == c
  {
    var start := NO_COMMAND.(args := c.args);
    var afterInput := if c.hasInput then Redirected(start, RedirectIn, c.inputFile) else start;
    var afterOutput := if c.hasOutput
                       then Redirected(afterInput, if c.appendOutput then RedirectAppend else RedirectOut, c.outputFile)
                       else afterInput;
    assert CommandOf(ErrorItems(c), afterOutput) == c;
    assert CommandOf(OutputItems(c), afterInput) == CommandOf(ErrorItems(c), afterOutput);
  }

  lemma {:induction false} ItemsMean(c: Command)
    requires Canonical(c)
    ensures CommandOf(ItemsOf(c), NO_COMMAND) == c && RedirectsOnly(ItemsOf(c))
    ensures c.args != [] ==> HasArg(ItemsOf(c))
  {
    ArgItemsMean(c.args, 0, InputItems(c), NO_COMMAND);
    RedirectItemsMean(c);
    assert RedirectsOnly(ErrorItems(c));
    assert RedirectsOnly(OutputItems(c));
  }

  lemma {:induction false} TreesMean(cs: seq<Command>, i: nat)
    requires i <= |cs| && forall c | c in cs :: Canonical(c) && c.args != []
    ensures PipelineOf(TreesOf(cs, i), cs[..i]) == cs
    ensures i < |cs| ==> ValidPipeline(TreesOf(cs, i))
    decreases |cs| - i
  {
    if i < |cs| {
      ItemsMean(cs[i]);
      assert cs[..i] + [cs[i]] == cs[..i + 1];
      TreesMean(cs, i + 1);
    } else {
      assert cs[..i] == cs;
    }
  }

  /** Every plan of the shape the parser returns is restored from any stream that spells it. */
  lemma {:induction false} EntriesMean(steps: List<PipelineStep>, connector: ChainOperator)
    requires ValidSteps(steps) && CanonicalSteps(steps)
    requires steps.Cons? ==> steps.head.connector == connector
    ensures ValidPlan(EntriesOf(steps)) && PlanOf(EntriesOf(steps), connector) == steps
  {
    if steps.Cons? {
      var Cons(step, tail) := steps;
      TreesMean(step.pipeline.commands, 0);
      EntriesMean(tail, ConnectorAfter(SeparatorBefore(tail, step.pipeline.background)));
    }
  }

  lemma {:induction false} EntriesProper(es: List<Entry>)
    requires ValidPlan(es)
    ensures Proper(PlanYield(es))
  {
    match es
    case Nil =>
    case Cons(Entry(cs, separator), tail) =>
      EntriesProper(tail);
      PipelineProper(cs, if separator == End then END_ONLY else Cons(Symbol(separator, ""), PlanYield(tail)));
  }

  lemma {:induction false} PipelineProper(cs: List<List<Item>>, rest: List<Symbol>)
    requires ValidPipeline(cs) && Proper(rest)
    ensures Proper(PipelineYield(cs, rest))
  {
    if cs.tail.Nil? {
      ItemsProper(cs.head, rest);
    } else {
      PipelineProper(cs.tail, rest);
      ItemsProper(cs.head, Cons(Symbol(Pipe, ""), PipelineYield(cs.tail, rest)));
    }
  }

  lemma {:induction false} ItemsProper(items: List<Item>, rest: List<Symbol>)
    requires RedirectsOnly(items) && Proper(rest)
    ensures Proper(ItemsYield(items, rest))
  {
    if items.Cons? {
      ItemsProper(items.tail, rest);
    }
  }

  /** Printing any plan the parser can return as symbols and parsing them gives the plan back. */
  lemma {:induction false} PrintThenParse(steps: List<PipelineStep>)
    requires Acceptable(steps)
    ensures Proper(PlanYield(EntriesOf(steps)))
    ensures ParsedFrom(PlanYield(EntriesOf(steps))) == Outcome(steps, "")
  {
    EntriesMean(steps, Always);
    EntriesProper(EntriesOf(steps));
    assert Derives(EntriesOf(steps), PlanYield(EntriesOf(steps)));
    ParseExact(PlanYield(EntriesOf(steps)));
  }

  /** The acceptable plans are exactly those some stream parses to. */
  lemma {:induction false} AcceptableExact(steps: List<PipelineStep>)
    ensures Acceptable(steps) <==> exists s :: Proper(s) && ParsedFrom(s) == Outcome(steps, "")
  {
    if Acceptable(steps) {
      PrintThenParse(steps);
    }
    if s :| Proper(s) && ParsedFrom(s) == Outcome(steps, "") {
      AcceptedPlan(s);
    }
  }

  /** Parsing, printing the plan and parsing again is parsing once. */
  lemma {:induction false} ParsePrintParse(s: List<Symbol>)
    requires Proper(s) && ParsedFrom(s).error == ""
    ensures ParsedFrom(PlanYield(EntriesOf(ParsedFrom(s).steps))) == ParsedFrom(s)
  {
    AcceptedPlan(s);
    PrintThenParse(ParsedFrom(s).steps);
  }
}
