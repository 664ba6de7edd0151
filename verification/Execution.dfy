/** Running a plan: the flat loop over steps means the left-nested and-or lists of the shell grammar. */
module Execution {
  import opened Syntax
  import G = Grammar

  datatype ExecutionResult = ExecutionResult(exitRequested: bool, exitCode: int, status: int)

  const NO_RESULT := ExecutionResult(false, 0, 0)

  /** What a pipeline does, given the pipelines run before it: any behaviour of the outside world is one of these. */
  type Behaviour = (seq<Pipeline>, Pipeline) -> ExecutionResult

  /** The pipelines run so far, in order, and the result of the last. */
  datatype Progress = Progress(ran: seq<Pipeline>, last: ExecutionResult)

  function Perform(p: Pipeline, before: Progress, run: Behaviour): Progress {
    Progress(before.ran + [p], run(before.ran, p))
  }

  // ---------- the meaning: lists of and-or trees ----------

  datatype AndOr =
    | Leaf(pipeline: Pipeline)
    | AndThen(left: AndOr, right: Pipeline)
    | OrElse(left: AndOr, right: Pipeline)

  function EvalTree(t: AndOr, before: Progress, run: Behaviour): Progress {
    match t
    case Leaf(p) => Perform(p, before, run)
    case AndThen(left, p) =>
      var so := EvalTree(left, before, run);
      if so.last.exitRequested || so.last.status != 0 then so else Perform(p, so, run)
    case OrElse(left, p) =>
      var so := EvalTree(left, before, run);
      if so.last.exitRequested || so.last.status == 0 then so else Perform(p, so, run)
  }

  /** The trees one after another; a request to exit ends the list. */
  function EvalList(ts: List<AndOr>, before: Progress, run: Behaviour): Progress {
    match ts
    case Nil => before
    case Cons(t, tail) =>
      var so := EvalTree(t, before, run);
      if so.last.exitRequested then so else EvalList(tail, so, run)
  }

  /** The steps after the tree `t`, nested to the left; an unconditional step starts a new tree. */
  function Nested(t: AndOr, steps: List<PipelineStep>): List<AndOr>
    decreases steps
  {
    match steps
    case Nil => Cons(t, Nil)
    case Cons(step, tail) =>
      match step.connector
      case Always => Cons(t, Nested(Leaf(step.pipeline), tail))
      case And => Nested(AndThen(t, step.pipeline), tail)
      case Or => Nested(OrElse(t, step.pipeline), tail)
  }

  function TreesOf(steps: List<PipelineStep>): List<AndOr> {
    match steps case Nil => Nil case Cons(step, tail) => Nested(Leaf(step.pipeline), tail)
  }

  // ---------- the flat loop ----------

  predicate ShouldExecute(connector: ChainOperator, previousStatus: int) {
    match connector
    case Always => true
    case And => previousStatus == 0
    case Or => previousStatus != 0
  }

  /** What the loop still does with `steps` once a first pipeline has run. */
  function FlatRest(steps: List<PipelineStep>, before: Progress, run: Behaviour): Progress {
    match steps
    case Nil => before
    case Cons(step, tail) =>
      if before.last.exitRequested then before
      else if !ShouldExecute(step.connector, before.last.status) then FlatRest(tail, before, run)
      else FlatRest(tail, Perform(step.pipeline, before, run), run)
  }

  /** Skipping steps one by one runs the same pipelines as evaluating the nested trees. */
  lemma {:induction false} FlatMeansNested(t: AndOr, steps: List<PipelineStep>, start: Progress, run: Behaviour)
    ensures FlatRest(steps, EvalTree(t, start, run), run) == EvalList(Nested(t, steps), start, run)
    decreases steps
  {
    var so := EvalTree(t, start, run);
    match steps
    case Nil => assert EvalList(Nil, so, run) == so;
    case Cons(step, tail) =>
      match step.connector
      case Always =>
        FlatMeansNested(Leaf(step.pipeline), tail, so, run);
      case And =>
        FlatMeansNested(AndThen(t, step.pipeline), tail, start, run);
        if so.last.exitRequested {
          ExitStops(tail, so, run);
        }
      case Or =>
        FlatMeansNested(OrElse(t, step.pipeline), tail, start, run);
        if so.last.exitRequested {
          ExitStops(tail, so, run);
        }
  }

  lemma {:induction false} ExitStops(steps: List<PipelineStep>, before: Progress, run: Behaviour)
    requires before.last.exitRequested
    ensures FlatRest(steps, before, run) == before
  {
  }

  /** The executor's loop: it runs the pipelines of the and-or lists, in order, and returns their result. */
  /** One turn: the step runs if it is the first or the result before it calls for it, and is skipped otherwise. */
  ghost predicate Turn(step: PipelineStep, first: bool, before: Progress, after: Progress, run: Behaviour) {
    var wanted := match step.connector
      case Always => true
      case And => before.last.status == 0
      case Or => before.last.status != 0;
    if first || wanted then after == Progress(before.ran + [step.pipeline], run(before.ran, step.pipeline))
    else after == before
  }

  /** The turns taken one after another from the start; none follows a request to exit. */
  ghost predicate Turns(steps: seq<PipelineStep>, trace: seq<Progress>, run: Behaviour) {
    && 0 < |trace| <= |steps| + 1 && trace[0] == Progress([], ExecutionResult(false, 0, 0))
    && (forall i | 0 <= i < |trace| - 1 :: Turn(steps[i], i == 0, trace[i], trace[i + 1], run))
    && forall i | 0 <= i < |trace| - 1 :: !trace[i].last.exitRequested
  }

  lemma {:induction false} NextTurn(steps: seq<PipelineStep>, trace: seq<Progress>, after: Progress, run: Behaviour)
    requires Turns(steps, trace, run) && |trace| <= |steps| && !trace[|trace| - 1].last.exitRequested
    requires Turn(steps[|trace| - 1], |trace| == 1, trace[|trace| - 1], after, run)
    ensures Turns(steps, trace + [after], run)
  {
    hide Turn;
    var more := trace + [after];
    forall i | 0 <= i < |more| - 1
      ensures Turn(steps[i], i == 0, more[i], more[i + 1], run) && !more[i].last.exitRequested
    {
      assert i < |trace| - 1 ==> Turn(steps[i], i == 0, trace[i], trace[i + 1], run);
    }
  }

  lemma {:induction false} NoTurns(steps: seq<PipelineStep>, run: Behaviour)
    ensures Turns(steps, [Progress([], NO_RESULT)], run)
  {
  }

  method Execute(steps: seq<PipelineStep>, run: Behaviour)
    returns (last: ExecutionResult, ran: seq<Pipeline>, ghost trace: seq<Progress>)
    ensures Progress(ran, last) == EvalList(TreesOf(Listed(steps, 0)), Progress([], NO_RESULT), run)
    ensures Turns(steps, trace, run) && Progress(ran, last) == trace[|trace| - 1]
    ensures |trace| == |steps| + 1 || last.exitRequested
  {
    hide Turns;
    last, ran, trace := NO_RESULT, [], [Progress([], NO_RESULT)];
    NoTurns(steps, run);
    var haveStatus := false;
    ghost var start := Progress([], NO_RESULT);
    for i := 0 to |steps|
      invariant haveStatus == (i > 0)
      invariant i == 0 ==> last == NO_RESULT && ran == []
      invariant i > 0 ==> !last.exitRequested
      invariant |trace| == i + 1 && trace[i] == Progress(ran, last) && Turns(steps, trace, run)
      invariant i > 0 ==>
                  EvalList(TreesOf(Listed(steps, 0)), start, run) ==
                  FlatRest(Listed(steps, i), Progress(ran, last), run)
    {
      var step := steps[i];
      if haveStatus && !ShouldExecute(step.connector, last.status) {
        NextTurn(steps, trace, trace[i], run);
        trace := trace + [trace[i]];
        continue;
      }
      if i == 0 {
        FlatMeansNested(Leaf(step.pipeline), Listed(steps, 1), start, run);
      }
      last, ran := run(ran, step.pipeline), ran + [step.pipeline];
      haveStatus := true;
      NextTurn(steps, trace, Progress(ran, last), run);
      trace := trace + [Progress(ran, last)];
      if last.exitRequested {
        ExitStops(Listed(steps, i + 1), Progress(ran, last), run);
        return;
      }
    }
  }

  // ---------- the trees are those of the grammar ----------

  /** The and-or lists of a parsed line: `&&` and `||` nest to the left, `;` and `&` separate. */
  function ListsOf(t: AndOr, separator: TokenType, es: List<G.Entry>): List<AndOr>
    decreases es
  {
    match es
    case Nil => Cons(t, Nil)
    case Cons(e, tail) =>
      var p := Pipeline(G.PipelineOf(e.commands, []), e.separator == Background);
      match separator
      case AndIf => ListsOf(AndThen(t, p), e.separator, tail)
      case OrIf => ListsOf(OrElse(t, p), e.separator, tail)
      case _ => Cons(t, ListsOf(Leaf(p), e.separator, tail))
  }

  lemma {:induction false} NestedIsParsed(t: AndOr, separator: TokenType, es: List<G.Entry>)
    ensures Nested(t, G.PlanOf(es, G.ConnectorAfter(separator))) == ListsOf(t, separator, es)
    decreases es
  {
    if es.Cons? {
      var p := Pipeline(G.PipelineOf(es.head.commands, []), es.head.separator == Background);
      match separator
      case AndIf => NestedIsParsed(AndThen(t, p), es.head.separator, es.tail);
      case OrIf => NestedIsParsed(OrElse(t, p), es.head.separator, es.tail);
      case _ => NestedIsParsed(Leaf(p), es.head.separator, es.tail);
    }
  }

  /** Executing the plan of a parsed line evaluates the and-or lists of its parse tree. */
  lemma {:induction false} PlanMeansGrammar(e: G.Entry, es: List<G.Entry>)
    ensures TreesOf(G.PlanOf(Cons(e, es), Always)) ==
            ListsOf(Leaf(Pipeline(G.PipelineOf(e.commands, []), e.separator == Background)), e.separator, es)
  {
    NestedIsParsed(Leaf(Pipeline(G.PipelineOf(e.commands, []), e.separator == Background)), e.separator, es);
  }
}
