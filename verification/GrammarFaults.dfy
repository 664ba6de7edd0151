/**
  The streams the parser refuses, as trees with a fault: complete entries, commands each followed by a pipe, and then
  the place where the grammar breaks off. `ParseFaultExact` shows which error each gets, and which steps are kept.
 */
module GrammarFaults {
  import opened Syntax
  import opened Parser
  import opened Grammar

  datatype Fault =
    | NoFile(items: List<Item>, kind: TokenType)   // a redirection that no word follows
    | NoWord(items: List<Item>)                    // a command of redirections only, or of nothing
    | NothingAfterPipe
    | NothingAfterOperator

  /** `es` are done with, `cs` wait for the command after their pipe, and `rest` is what the parser does not get to. */
  datatype Broken = Broken(es: List<Entry>, cs: List<List<Item>>, fault: Fault, rest: List<Symbol>)

  // ---------- what a broken tree yields ----------

  function FaultYield(f: Fault, rest: List<Symbol>): List<Symbol> {
    match f
    case NoFile(items, kind) => ItemsYield(items, Cons(Symbol(kind, ""), rest))
    case NoWord(items) => ItemsYield(items, rest)
    case _ => rest
  }

  function PipedYield(cs: List<List<Item>>, rest: List<Symbol>): List<Symbol> {
    match cs case Nil => rest case Cons(c, tail) => ItemsYield(c, Cons(Symbol(Pipe, ""), PipedYield(tail, rest)))
  }

  function EntriesYield(es: List<Entry>, rest: List<Symbol>): List<Symbol> {
    match es
    case Nil => rest
    case Cons(Entry(cs, separator), tail) => PipelineYield(cs, Cons(Symbol(separator, ""), EntriesYield(tail, rest)))
  }

  function BrokenYield(b: Broken): List<Symbol> {
    EntriesYield(b.es, PipedYield(b.cs, FaultYield(b.fault, b.rest)))
  }

  // ---------- which broken trees there are ----------

  predicate IsListOperator(kind: TokenType) {
    kind == AndIf || kind == OrIf || kind == Semicolon
  }

  predicate ValidPiped(cs: List<List<Item>>) {
    cs.Cons? ==> RedirectsOnly(cs.head) && HasArg(cs.head) && ValidPiped(cs.tail)
  }

  predicate ValidEntries(es: List<Entry>) {
    es.Cons? ==>
      && ValidPipeline(es.head.commands)
      && (IsListOperator(es.head.separator) || es.head.separator == Background)
      && ValidEntries(es.tail)
  }

  predicate EndsInOperator(es: List<Entry>) {
    es.Cons? && if es.tail.Nil? then IsListOperator(es.head.separator) else EndsInOperator(es.tail)
  }

  predicate ValidFault(b: Broken) {
    && b.rest.Cons?
    && match b.fault
       case NoFile(items, kind) => RedirectsOnly(items) && IsRedirection(kind) && b.rest.head.kind != Word
       case NoWord(items) =>
         && RedirectsOnly(items) && !HasArg(items) && Terminates(b.rest.head.kind)
         && (items.Nil? ==> b.cs.Nil? && b.rest.head.kind != End)
       case NothingAfterPipe => b.cs.Cons? && Terminates(b.rest.head.kind)
       case NothingAfterOperator => b.cs.Nil? && EndsInOperator(b.es) && b.rest.head.kind == End
  }

  predicate Valid(b: Broken) {
    ValidEntries(b.es) && ValidPiped(b.cs) && ValidFault(b)
  }

  /** `b` is a broken tree of the stream `s`. */
  ghost predicate Breaks(b: Broken, s: List<Symbol>) {
    Valid(b) && BrokenYield(b) == s
  }

  function Message(f: Fault): string {
    match f
    case NoFile(_, _) => "syntax error: expected filename after redirection"
    case NoWord(_) => "syntax error: expected command"
    case NothingAfterPipe => "syntax error: expected command after pipe"
    case NothingAfterOperator => "syntax error: expected command after operator"
  }

  // ---------- a broken tree gets the error of its fault ----------

  lemma {:induction false} CommandBreaks(items: List<Item>, c: Command, f: Fault, rest: List<Symbol>)
    requires RedirectsOnly(items) && rest.Cons?
    requires (f.NoFile? && IsRedirection(f.kind) && rest.head.kind != Word) ||
             (f.NoWord? && !HasArg(items) && c.args == [] && Terminates(rest.head.kind))
    ensures CommandFrom(ItemsYield(items, if f.NoFile? then Cons(Symbol(f.kind, ""), rest) else rest), c) ==
            Bad(Message(f))
  {
    match items
    case Nil =>
    case Cons(Arg(text), tail) => CommandBreaks(tail, c.(args := c.args + [text]), f, rest);
    case Cons(Redirect(kind, file), tail) => CommandBreaks(tail, Redirected(c, kind, file), f, rest);
  }

  /** The symbols of a pipeline that breaks off start with a command, or with what cannot be one. */
  lemma {:induction false} PipedBreaks(cs: List<List<Item>>, f: Fault, rest: List<Symbol>, before: seq<Command>)
    requires ValidPiped(cs) && rest.Cons?
    requires match f
             case NoFile(items, kind) => RedirectsOnly(items) && IsRedirection(kind) && rest.head.kind != Word
             case NoWord(items) =>
               && RedirectsOnly(items) && !HasArg(items) && Terminates(rest.head.kind)
               && (items.Nil? ==> cs.Nil? && before == [])
             case NothingAfterPipe => cs.Cons? && Terminates(rest.head.kind)
             case NothingAfterOperator => false
    ensures PipelineFrom(PipedYield(cs, FaultYield(f, rest)), before) == Bad(Message(f))
    decreases cs
  {
    if cs.Nil? {
      CommandBreaks(f.items, NO_COMMAND, f, rest);
    } else {
      var after := PipedYield(cs.tail, FaultYield(f, rest));
      CommandParsed(cs.head, NO_COMMAND, Cons(Symbol(Pipe, ""), after));
      if cs.tail.Cons? {
        YieldStarts(cs.tail.head, Cons(Symbol(Pipe, ""), PipedYield(cs.tail.tail, FaultYield(f, rest))));
      }
      if !(cs.tail.Nil? && f.NothingAfterPipe?) {
        PipedBreaks(cs.tail, f, rest, before + [CommandOf(cs.head, NO_COMMAND)]);
      }
    }
  }

  lemma {:induction false} FaultStarts(b: Broken)
    requires Valid(b) && !(b.es.Nil? && b.fault.NothingAfterOperator?)
    ensures !AtEnd(BrokenYield(b))
  {
    if b.es.Cons? {
      var Cons(Entry(cs, separator), tail) := b.es;
      var rest := EntriesYield(tail, PipedYield(b.cs, FaultYield(b.fault, b.rest)));
      PipelineParsed(cs, [], Cons(Symbol(separator, ""), rest));
    } else if b.cs.Cons? {
      YieldStarts(b.cs.head, Cons(Symbol(Pipe, ""), PipedYield(b.cs.tail, FaultYield(b.fault, b.rest))));
    }
  }

  lemma {:induction false} EntriesBreak(b: Broken, connector: ChainOperator)
    requires Valid(b) && !(b.es.Nil? && b.fault.NothingAfterOperator?)
    ensures StepsFrom(BrokenYield(b), connector) == Outcome(PlanOf(b.es, connector), Message(b.fault))
    decreases b.es
  {
    if b.es.Nil? {
      PipedBreaks(b.cs, b.fault, b.rest, []);
    } else {
      var Cons(Entry(cs, separator), tail) := b.es;
      var later := b.(es := tail);
      PipelineParsed(cs, [], Cons(Symbol(separator, ""), BrokenYield(later)));
      if !(tail.Nil? && b.fault.NothingAfterOperator?) {
        EntriesBreak(later, ConnectorAfter(separator));
        FaultStarts(later);
      }
    }
  }

  // ---------- every refused stream has a broken tree ----------

  lemma {:induction false} CommandBroken(s: List<Symbol>, c: Command) returns (f: Fault, rest: List<Symbol>)
    requires Proper(s) && CommandFrom(s, c).Bad?
    ensures f.NoFile? || f.NoWord?
    ensures rest.Cons? && RedirectsOnly(f.items) && s == FaultYield(f, rest)
    ensures f.NoFile? ==> IsRedirection(f.kind) && rest.head.kind != Word
    ensures f.NoWord? ==> !HasArg(f.items) && c.args == [] && Terminates(rest.head.kind)
    decreases s
  {
    var Cons(Symbol(kind, text), tail) := s;
    if kind == Word {
      f, rest := CommandBroken(tail, c.(args := c.args + [text]));
      f := f.(items := Cons(Arg(text), f.items));
    } else if !IsRedirection(kind) {
      f, rest := NoWord(Nil), s;
    } else if tail.head.kind != Word {
      f, rest := NoFile(Nil, kind), tail;
    } else {
      f, rest := CommandBroken(tail.tail, Redirected(c, kind, tail.head.text));
      f := f.(items := Cons(Redirect(kind, tail.head.text), f.items));
    }
  }

  lemma {:induction false} PipelineBroken(s: List<Symbol>, before: seq<Command>)
    returns (cs: List<List<Item>>, f: Fault, rest: List<Symbol>)
    requires Proper(s) && PipelineFrom(s, before).Bad?
    ensures ValidPiped(cs) && !f.NothingAfterOperator? && ValidFaultIn(cs, f, rest)
    ensures s == PipedYield(cs, FaultYield(f, rest)) && (f == NoWord(Nil) ==> cs.Nil? && rest == s)
    decreases s
  {
    hide CommandFrom, HasArg, RedirectsOnly;
    if CommandFrom(s, NO_COMMAND).Bad? {
      cs := Nil;
      f, rest := CommandBroken(s, NO_COMMAND);
      assert f == NoWord(Nil) ==> FaultYield(f, rest) == ItemsYield(Nil, rest);
    } else {
      var Good(c, after) := CommandFrom(s, NO_COMMAND);
      var items := CommandTree(s, NO_COMMAND);
      if Terminates(after.tail.head.kind) {
        cs, f, rest := Cons(items, Nil), NothingAfterPipe, after.tail;
      } else {
        cs, f, rest := PipelineBroken(after.tail, before + [c]);
        cs := Cons(items, cs);
      }
    }
  }

  /** The part of a fault's validity that its pipeline decides. */
  predicate ValidFaultIn(cs: List<List<Item>>, f: Fault, rest: List<Symbol>) {
    && rest.Cons?
    && match f
       case NoFile(items, kind) => RedirectsOnly(items) && IsRedirection(kind) && rest.head.kind != Word
       case NoWord(items) => RedirectsOnly(items) && !HasArg(items) && Terminates(rest.head.kind)
       case NothingAfterPipe => cs.Cons? && Terminates(rest.head.kind)
       case NothingAfterOperator => true
  }

  lemma {:induction false} PlanBroken(s: List<Symbol>, connector: ChainOperator) returns (b: Broken)
    requires Proper(s) && !AtEnd(s) && StepsFrom(s, connector).error != ""
    ensures Breaks(b, s)
    decreases s
  {
    hide PipelineFrom, PipedYield, FaultYield;
    if PipelineFrom(s, []).Bad? {
      var cs, f, rest := PipelineBroken(s, []);
      b := Broken(Nil, cs, f, rest);
    } else {
      var Good(_, rest) := PipelineFrom(s, []);
      var cs := PipelineTree(s, []);
      var entry := Entry(cs, rest.head.kind);
      if AtEnd(rest.tail) {
        b := Broken(Cons(entry, Nil), Nil, NothingAfterOperator, rest.tail);
        EndYield(b.rest);
        assert EntriesYield(Nil, rest.tail) == rest.tail && EndsInOperator(b.es);
        assert ValidEntries(Nil) && ValidPiped(b.cs);
      } else {
        var later := PlanBroken(rest.tail, ConnectorAfter(rest.head.kind));
        b := later.(es := Cons(entry, later.es));
      }
    }
  }

  lemma {:induction false} EndYield(rest: List<Symbol>)
    ensures PipedYield(Nil, FaultYield(NothingAfterOperator, rest)) == rest
  {
  }

  /**
    The parser refuses a stream exactly when it has a broken tree, and then reports the error of its fault and keeps
    the steps of the entries before it.
   */
  lemma {:induction false} ParseFaultExact(s: List<Symbol>)
    requires Proper(s)
    ensures ParsedFrom(s).error != "" <==> exists b :: Breaks(b, s)
    ensures forall b | Breaks(b, s) :: ParsedFrom(s) == Outcome(PlanOf(b.es, Always), Message(b.fault))
  {
    hide StepsFrom, BrokenYield, ValidEntries, ValidPiped;
    forall b | Breaks(b, s)
      ensures ParsedFrom(s) == Outcome(PlanOf(b.es, Always), Message(b.fault))
    {
      EntriesBreak(b, Always);
      FaultStarts(b);
    }
    if ParsedFrom(s).error != "" {
      var b := PlanBroken(s, Always);
    }
  }
}
