/** From a typed line to a plan: lexing followed by parsing. */
module CommandLine {
  import opened Syntax
  import opened Lexer
  import opened Parser
  import Grammar
  import LexerProperties

  function ParsedLine(input: string): Outcome {
    var Stream(tokens, error) := Lexed(input);
    if error != "" then Outcome(Nil, error) else ParsedFrom(Erase(tokens))
  }

  /** Parses a line; a successful parse is the plan of a parse tree, fit for the executor. */
  method ParseLine(input: string) returns (r: ParseResult)
    ensures ParsedLine(input) == Outcome(Listed(r.steps, 0), r.error)
    ensures r.Ok() ==> Grammar.Acceptable(Listed(r.steps, 0))
  {
    var lexed := Lex(input);
    if !lexed.Ok() {
      return ParseResult([], lexed.error);
    }
    LexerProperties.TokensShaped(input, lexed.tokens);
    SeenEnded(lexed.tokens);
    r := Parse(lexed.tokens);
    LexerProperties.LexShaped(input);
    LexerProperties.ShapedProper(input, Lexed(input).tokens, 0);
    if r.Ok() {
      Grammar.AcceptedPlan(Erase(Lexed(input).tokens));
    }
  }
}
