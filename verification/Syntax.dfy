/** The data passed between the lexer, the parser and the executor: tokens, commands and plans. */
module Syntax {

  datatype Option<+T> = None | Some(value: T)

  /** Streams of characters and of tokens are read front to back; specifications treat them as lists. */
  datatype List<+T> = Nil | Cons(head: T, tail: List<T>)

  /** The elements of `s` from index `i` on. */
  function Listed<T>(s: seq<T>, i: nat): List<T>
    requires i <= |s|
    decreases |s| - i
  {
    if i == |s| then Nil else Cons(s[i], Listed(s, i + 1))
  }

  function Length<T>(l: List<T>): nat {
    match l case Nil => 0 case Cons(_, tail) => 1 + Length(tail)
  }

  function Append<T>(l: List<T>, rest: List<T>): List<T> {
    match l case Nil => rest case Cons(x, tail) => Cons(x, Append(tail, rest))
  }

  lemma {:induction false} AppendNil<T>(l: List<T>)
    ensures Append(l, Nil) == l
  {
    if l.Cons? {
      AppendNil(l.tail);
    }
  }

  lemma {:induction false} ListedSuffix<T>(a: seq<T>, b: seq<T>, j: nat)
    requires j <= |b|
    ensures Listed(a + b, |a| + j) == Listed(b, j)
    decreases |b| - j
  {
    if j < |b| {
      ListedSuffix(a, b, j + 1);
    }
  }

  lemma {:induction false} ListedAppend<T>(a: seq<T>, b: seq<T>, i: nat)
    requires i <= |a|
    ensures Listed(a + b, i) == Append(Listed(a, i), Listed(b, 0))
    ensures Length(Listed(a, i)) == |a| - i
    decreases |a| - i
  {
    if i == |a| {
      ListedSuffix(a, b, 0);
    } else {
      ListedAppend(a, b, i + 1);
    }
  }

  /** The elements of `s`, followed by `rest`. */
  function Push<T>(s: seq<T>, rest: List<T>): List<T> {
    if s == [] then rest else Push(s[..|s| - 1], Cons(s[|s| - 1], rest))
  }

  lemma {:induction false} PushLast<T>(s: seq<T>, x: T, rest: List<T>)
    ensures Push(s + [x], rest) == Push(s, Cons(x, rest))
  {
    assert (s + [x])[..|s|] == s;
  }

  lemma {:induction false} PushPrefix<T>(s: seq<T>, n: nat)
    requires n <= |s|
    ensures Push(s[..n], Listed(s, n)) == Listed(s, 0)
  {
    if n > 0 {
      assert s[..n][..n - 1] == s[..n - 1];
      PushPrefix(s, n - 1);
    }
  }

  lemma {:induction false} PushAll<T>(s: seq<T>)
    ensures Push(s, Nil) == Listed(s, 0)
  {
    PushPrefix(s, |s|);
    assert s[..|s|] == s;
  }

  datatype TokenType =
    | Word | Pipe | AndIf | Background | OrIf | Semicolon
    | RedirectIn | RedirectOut | RedirectAppend | RedirectErr | RedirectErrAppend
    | End

  datatype Token = Token(kind: TokenType, text: string, position: nat)

  /** Tokens read before an error are kept, as the source keeps them; `error` is empty on success. */
  datatype LexResult = LexResult(tokens: seq<Token>, error: string) {
    predicate Ok() { error == "" }
  }

  datatype Command = Command(
    args: seq<string>,
    inputFile: string, outputFile: string, errorFile: string,
    hasInput: bool, hasOutput: bool, hasError: bool,
    appendOutput: bool, appendError: bool)

  const NO_COMMAND := Command([], "", "", "", false, false, false, false, false)

  datatype Pipeline = Pipeline(commands: seq<Command>, background: bool)

  datatype ChainOperator = Always | And | Or

  datatype PipelineStep = PipelineStep(connector: ChainOperator, pipeline: Pipeline)

  /** Steps parsed before an error are kept; `error` is empty on success. */
  datatype ParseResult = ParseResult(steps: seq<PipelineStep>, error: string) {
    predicate Ok() { error == "" }
  }

  /** `isspace` in the C locale. */
  predicate IsSpace(c: char) {
    c == ' ' || c == '\t' || c == '\n' || c == '\U{0B}' || c == '\U{0C}' || c == '\r'
  }

  /** The characters that start an operator wherever they stand unquoted. */
  predicate IsOperatorChar(c: char) {
    c == '|' || c == '&' || c == ';' || c == '<' || c == '>'
  }

  /** Backslash and the two quote characters. */
  predicate IsQuoting(c: char) {
    c == '\\' || c == '\'' || c == '"'
  }

  predicate IsRedirection(kind: TokenType) {
    kind.RedirectIn? || kind.RedirectOut? || kind.RedirectAppend? || kind.RedirectErr? || kind.RedirectErrAppend?
  }
}
