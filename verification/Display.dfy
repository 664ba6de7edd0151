/** Printing a pipeline back as shell text, and what reading the printed text gives. */
module Display {
  import opened Syntax
  import opened Lexer
  import opened LexicalGrammar

  predicate IsTrigger(c: char) {
    IsSpace(c) || IsOperatorChar(c)
  }

  predicate NeedsQuotes(v: string) {
    exists i :: 0 <= i < |v| && IsTrigger(v[i])
  }

  predicate HasQuoting(v: string) {
    exists i :: 0 <= i < |v| && IsQuoting(v[i])
  }

  // ---------- the printed text as a string ----------

  /** `v` with every single quote written so that it can stand between two runs of single quotes. */
  function Doubled(v: string): string {
    if v == "" then "" else (if v[0] == '\'' then "'\\''" else [v[0]]) + Doubled(v[1..])
  }

  /** A word as it is shown: in single quotes if it is empty or contains a blank or an operator character. */
  function Shown(v: string): string {
    if v == "" || exists i :: 0 <= i < |v| && (v[i] == ' ' || '\t' <= v[i] <= '\r' || v[i] in {'|', '&', ';', '<', '>'})
    then "'" + Doubled(v) + "'" else v
  }

  function ShownWords(args: seq<string>, i: nat): string
    requires i <= |args|
    decreases |args| - i
  {
    if i == |args| then "" else (if i > 0 then " " else "") + Shown(args[i]) + ShownWords(args, i + 1)
  }

  function ShownInput(c: Command): string {
    if c.hasInput then " < " + Shown(c.inputFile) else ""
  }

  function ShownOutput(c: Command): string {
    if c.hasOutput then (if c.appendOutput then " >> " else " > ") + Shown(c.outputFile) else ""
  }

  function ShownError(c: Command): string {
    if c.hasError then (if c.appendError then " 2>> " else " 2> ") + Shown(c.errorFile) else ""
  }

  function ShownCommand(c: Command): string {
    ShownWords(c.args, 0) + (ShownInput(c) + (ShownOutput(c) + ShownError(c)))
  }

  function ShownCommands(cs: seq<Command>, i: nat): string
    requires i <= |cs|
    decreases |cs| - i
  {
    if i == |cs| then "" else (if i > 0 then " | " else "") + ShownCommand(cs[i]) + ShownCommands(cs, i + 1)
  }

  // ---------- the printed text, in front of `rest` ----------

  /** The inside of single quotes, up to and with the closing one; a quote is printed as `'\''`. */
  function QuotedText(v: List<char>, rest: List<char>): List<char> {
    match v
    case Nil => Cons('\'', rest)
    case Cons(c, tail) =>
      if c == '\'' then Cons('\'', Cons('\\', Cons('\'', Cons('\'', QuotedText(tail, rest)))))
      else Cons(c, QuotedText(tail, rest))
  }

  function WordText(v: string, rest: List<char>): List<char> {
    if v == "" || NeedsQuotes(v) then Cons('\'', QuotedText(Listed(v, 0), rest)) else Append(Listed(v, 0), rest)
  }

  function ArgsText(args: seq<string>, i: nat, rest: List<char>): List<char>
    requires i <= |args|
    decreases |args| - i
  {
    if i == |args| then rest
    else
      var text := WordText(args[i], ArgsText(args, i + 1, rest));
      if i > 0 then Cons(' ', text) else text
  }

  function ErrorText(c: Command, rest: List<char>): List<char> {
    if !c.hasError then rest
    else
      var file := Cons(' ', WordText(c.errorFile, rest));
      Cons(' ', Cons('2', Cons('>', if c.appendError then Cons('>', file) else file)))
  }

  function OutputText(c: Command, rest: List<char>): List<char> {
    if !c.hasOutput then ErrorText(c, rest)
    else
      var file := Cons(' ', WordText(c.outputFile, ErrorText(c, rest)));
      Cons(' ', Cons('>', if c.appendOutput then Cons('>', file) else file))
  }

  function InputText(c: Command, rest: List<char>): List<char> {
    if !c.hasInput then OutputText(c, rest)
    else Cons(' ', Cons('<', Cons(' ', WordText(c.inputFile, OutputText(c, rest)))))
  }

  function CommandText(c: Command, rest: List<char>): List<char> {
    ArgsText(c.args, 0, InputText(c, rest))
  }

  function CommandsText(cs: seq<Command>, i: nat, rest: List<char>): List<char>
    requires i <= |cs|
    decreases |cs| - i
  {
    if i == |cs| then rest
    else
      var text := CommandText(cs[i], CommandsText(cs, i + 1, rest));
      if i > 0 then Cons(' ', Cons('|', Cons(' ', text))) else text
  }

  // ---------- the printing loops ----------

  lemma {:induction false} PushText<T>(a: seq<T>, b: seq<T>, rest: List<T>)
    ensures Push(a + b, rest) == Push(a, Push(b, rest))
    decreases |b|
  {
    if b == [] {
      assert a + b == a;
    } else {
      var n := |b| - 1;
      assert a + b == (a + b[..n]) + [b[n]] && b == b[..n] + [b[n]];
      PushLast(a + b[..n], b[n], rest);
      PushLast(b[..n], b[n], rest);
      PushText(a, b[..n], Cons(b[n], rest));
    }
  }

  lemma {:induction false} PushListed<T>(s: seq<T>, n: nat, rest: List<T>)
    requires n <= |s|
    ensures Push(s[..n], Append(Listed(s, n), rest)) == Append(Listed(s, 0), rest)
  {
    if n > 0 {
      assert s[..n][..n - 1] == s[..n - 1];
      PushListed(s, n - 1, rest);
    }
  }

  /** Appending the printed form of a piece of text to `a`. */
  lemma {:induction false} PushPrinted(a: string, b: string, rest: List<char>)
    ensures Push(a + b, rest) == Push(a, Append(Listed(b, 0), rest))
  {
    PushText(a, b, rest);
    PushListed(b, |b|, rest);
    assert b[..|b|] == b;
  }

  lemma {:induction false} ListedShort(text: string)
    ensures |text| == 1 ==> Listed(text, 0) == Cons(text[0], Nil)
    ensures |text| == 2 ==> Listed(text, 0) == Cons(text[0], Cons(text[1], Nil))
    ensures |text| == 3 ==> Listed(text, 0) == Cons(text[0], Cons(text[1], Cons(text[2], Nil)))
    ensures |text| == 4 ==> Listed(text, 0) == Cons(text[0], Cons(text[1], Cons(text[2], Cons(text[3], Nil))))
    ensures |text| == 5 ==>
              Listed(text, 0) == Cons(text[0], Cons(text[1], Cons(text[2], Cons(text[3], Cons(text[4], Nil)))))
  {
    if 1 <= |text| <= 5 {
      assert Listed(text, |text|) == Nil;
      assert |text| >= 2 ==> Listed(text, |text| - 1) == Cons(text[|text| - 1], Nil);
      assert |text| >= 3 ==> Listed(text, |text| - 2) == Cons(text[|text| - 2], Listed(text, |text| - 1));
      assert |text| >= 4 ==> Listed(text, |text| - 3) == Cons(text[|text| - 3], Listed(text, |text| - 2));
      assert |text| >= 5 ==> Listed(text, |text| - 4) == Cons(text[|text| - 4], Listed(text, |text| - 3));
    }
  }

  /** Appending a short piece of text, character by character. */
  lemma {:induction false} PushShort(a: string, b: string, rest: List<char>)
    ensures |b| == 1 ==> Push(a + b, rest) == Push(a, Cons(b[0], rest))
    ensures |b| == 3 ==> Push(a + b, rest) == Push(a, Cons(b[0], Cons(b[1], Cons(b[2], rest))))
    ensures |b| == 4 ==> Push(a + b, rest) == Push(a, Cons(b[0], Cons(b[1], Cons(b[2], Cons(b[3], rest)))))
    ensures |b| == 5 ==> Push(a + b, rest) == Push(a, Cons(b[0], Cons(b[1], Cons(b[2], Cons(b[3], Cons(b[4], rest))))))
  {
    PushPrinted(a, b, rest);
    ListedShort(b);
    var l := Listed(b, 0);
    if |b| >= 1 && |b| <= 5 {
      assert Append(l, rest) == Cons(l.head, Append(l.tail, rest));
      assert |b| >= 3 ==> Append(l.tail, rest) == Cons(l.tail.head, Append(l.tail.tail, rest));
      assert |b| >= 3 ==> Append(l.tail.tail, rest) == Cons(l.tail.tail.head, Append(l.tail.tail.tail, rest));
      assert |b| >= 4 ==>
          Append(l.tail.tail.tail, rest) == Cons(l.tail.tail.tail.head, Append(l.tail.tail.tail.tail, rest));
    }
  }

  method QuoteForDisplay(value: string) returns (text: string)
    ensures text != "" && Listed(text, 0) == WordText(value, Nil)
    ensures text == Shown(value)
  {
    hide Shown;
    if value == "" {
      text := "''";
      ListedShort(text);
      ShownByText(text, value);
      return;
    }
    var needsQuotes := false;
    for i := 0 to |value|
      invariant needsQuotes == NeedsQuotes(value[..i])
    {
      if IsSpace(value[i]) || IsOperatorChar(value[i]) {
        needsQuotes := true;
        assert IsTrigger(value[i]);
        break;
      }
    }
    if !needsQuotes {
      assert value[..|value|] == value;
      AppendNil(Listed(value, 0));
      ShownByText(value, value);
      return value;
    }
    text := "'";
    PushShort("", text, QuotedText(Listed(value, 0), Nil));
    for i := 0 to |value|
      invariant text != ""
      invariant Push(text, QuotedText(Listed(value, i), Nil)) == WordText(value, Nil)
    {
      ghost var rest := QuotedText(Listed(value, i + 1), Nil);
      if value[i] == '\'' {
        PushShort(text, "'\\''", rest);
        text := text + "'\\''";
      } else {
        PushShort(text, [value[i]], rest);
        text := text + [value[i]];
      }
    }
    PushShort(text, "'", Nil);
    text := text + "'";
    PushAll(text);
    ShownByText(text, value);
  }

  lemma {:induction false} AppendTwice<T>(a: List<T>, b: List<T>, c: List<T>)
    ensures Append(Append(a, b), c) == Append(a, Append(b, c))
  {
    if a.Cons? {
      AppendTwice(a.tail, b, c);
    }
  }

  lemma {:induction false} QuotedSplit(v: List<char>, a: List<char>, b: List<char>)
    ensures QuotedText(v, Append(a, b)) == Append(QuotedText(v, a), b)
  {
    if v.Cons? {
      QuotedSplit(v.tail, a, b);
      if v.head == '\'' {
        var q := Cons('\'', QuotedText(v.tail, a));
        assert Append(Cons('\\', Cons('\'', q)), b) == Cons('\\', Cons('\'', Append(q, b)));
      }
    }
  }

  lemma {:induction false} WordSplit(v: string, a: List<char>, b: List<char>)
    ensures WordText(v, Append(a, b)) == Append(WordText(v, a), b)
  {
    QuotedSplit(Listed(v, 0), a, b);
    AppendTwice(Listed(v, 0), a, b);
  }

  /** Appending the printed form of a word. */
  lemma {:induction false} PushWord(text: string, v: string, printed: string, rest: List<char>)
    requires Listed(printed, 0) == WordText(v, Nil)
    ensures Push(text + printed, rest) == Push(text, WordText(v, rest))
  {
    PushPrinted(text, printed, rest);
    WordSplit(v, Nil, rest);
  }

  method FormatCommand(command: Command) returns (text: string)
    ensures Listed(text, 0) == CommandText(command, Nil)
    ensures text == ShownCommand(command)
  {
    hide ShownCommand, WordText, Shown;
    text := "";
    for i := 0 to |command.args|
      invariant text == "" <==> i == 0
      invariant Push(text, ArgsText(command.args, i, InputText(command, Nil))) == CommandText(command, Nil)
    {
      ghost var rest := ArgsText(command.args, i + 1, InputText(command, Nil));
      if text != "" {
        PushShort(text, " ", WordText(command.args[i], rest));
        text := text + " ";
      }
      var word := QuoteForDisplay(command.args[i]);
      PushWord(text, command.args[i], word, rest);
      text := text + word;
    }
    if command.hasInput {
      var word := QuoteForDisplay(command.inputFile);
      PushWord(text + " < ", command.inputFile, word, OutputText(command, Nil));
      PushShort(text, " < ", WordText(command.inputFile, OutputText(command, Nil)));
      text := text + " < " + word;
    }
    assert Push(text, OutputText(command, Nil)) == CommandText(command, Nil);
    if command.hasOutput {
      var word := QuoteForDisplay(command.outputFile);
      var operator := if command.appendOutput then " >> " else " > ";
      PushWord(text + operator, command.outputFile, word, ErrorText(command, Nil));
      PushShort(text, operator, WordText(command.outputFile, ErrorText(command, Nil)));
      text := text + operator;
      text := text + word;
    }
    assert Push(text, ErrorText(command, Nil)) == CommandText(command, Nil);
    if command.hasError {
      var word := QuoteForDisplay(command.errorFile);
      var operator := if command.appendError then " 2>> " else " 2> ";
      PushWord(text + operator, command.errorFile, word, Nil);
      PushShort(text, operator, WordText(command.errorFile, Nil));
      text := text + operator;
      text := text + word;
    }
    PushAll(text);
    CommandShown(command, Nil);
    StringOfListed(text, 0);
    assert text[0..] == text && ShownCommand(command) + "" == ShownCommand(command);
  }

  lemma {:induction false} ArgsSplit(args: seq<string>, i: nat, a: List<char>, b: List<char>)
    requires i <= |args|
    ensures ArgsText(args, i, Append(a, b)) == Append(ArgsText(args, i, a), b)
    decreases |args| - i
  {
    if i < |args| {
      ArgsSplit(args, i + 1, a, b);
      WordSplit(args[i], ArgsText(args, i + 1, a), b);
    }
  }

  lemma {:induction false} RedirectsSplit(c: Command, b: List<char>)
    ensures InputText(c, b) == Append(InputText(c, Nil), b)
  {
    WordSplit(c.errorFile, Nil, b);
    ErrorSplit(c, b);
    WordSplit(c.outputFile, ErrorText(c, Nil), b);
    OutputSplit(c, b);
    WordSplit(c.inputFile, OutputText(c, Nil), b);
    if c.hasInput {
      var file := Cons(' ', WordText(c.inputFile, OutputText(c, Nil)));
      assert Append(Cons('<', file), b) == Cons('<', Append(file, b));
    }
  }

  lemma {:induction false} ErrorSplit(c: Command, b: List<char>)
    ensures ErrorText(c, b) == Append(ErrorText(c, Nil), b)
  {
    WordSplit(c.errorFile, Nil, b);
    if c.hasError {
      var file := Cons(' ', WordText(c.errorFile, Nil));
      var redirect := if c.appendError then Cons('>', file) else file;
      assert Append(redirect, b) == if c.appendError then Cons('>', Append(file, b)) else Append(file, b);
      assert Append(Cons('2', Cons('>', redirect)), b) == Cons('2', Cons('>', Append(redirect, b)));
    }
  }

  lemma {:induction false} OutputSplit(c: Command, b: List<char>)
    ensures OutputText(c, b) == Append(OutputText(c, Nil), b)
  {
    ErrorSplit(c, b);
    WordSplit(c.outputFile, ErrorText(c, Nil), b);
    if c.hasOutput {
      var file := Cons(' ', WordText(c.outputFile, ErrorText(c, Nil)));
      var redirect := if c.appendOutput then Cons('>', file) else file;
      assert Append(redirect, b) == if c.appendOutput then Cons('>', Append(file, b)) else Append(file, b);
    }
  }

  lemma {:induction false} CommandSplit(c: Command, b: List<char>)
    ensures CommandText(c, b) == Append(CommandText(c, Nil), b)
  {
    RedirectsSplit(c, b);
    ArgsSplit(c.args, 0, InputText(c, Nil), b);
  }

  method FormatPipeline(pipeline: Pipeline) returns (text: string)
    ensures text == StringOf(CommandsText(pipeline.commands, 0, Nil))
    ensures text == ShownCommands(pipeline.commands, 0)
  {
    text := "";
    var commands := pipeline.commands;
    for i := 0 to |commands|
      invariant Push(text, CommandsText(commands, i, Nil)) == CommandsText(commands, 0, Nil)
    {
      ghost var rest := CommandsText(commands, i + 1, Nil);
      if i > 0 {
        PushShort(text, " | ", CommandText(commands[i], rest));
        text := text + " | ";
      }
      var command := FormatCommand(commands[i]);
      PushPrinted(text, command, rest);
      CommandSplit(commands[i], rest);
      text := text + command;
    }
    PushAll(text);
    CommandsShown(commands, 0);
    StringOfListed(text, 0);
    assert text[0..] == text;
  }

  lemma {:induction false} StringOfListed(s: string, i: nat)
    requires i <= |s|
    ensures StringOf(Listed(s, i)) == s[i..]
    decreases |s| - i
  {
    if i < |s| {
      StringOfListed(s, i + 1);
    }
  }

  lemma {:induction false} ListedStringOf(l: List<char>)
    ensures Listed(StringOf(l), 0) == l
  {
    if l.Cons? {
      ListedStringOf(l.tail);
      ListedAppend([l.head], StringOf(l.tail), 0);
      ListedShort([l.head]);
    }
  }

  // ---------- the two accounts of the printed text agree ----------

  lemma {:induction false} ShortString(s: string, rest: List<char>)
    ensures |s| == 3 ==> StringOf(Cons(s[0], Cons(s[1], Cons(s[2], rest)))) == s + StringOf(rest)
    ensures |s| == 4 ==> StringOf(Cons(s[0], Cons(s[1], Cons(s[2], Cons(s[3], rest))))) == s + StringOf(rest)
    ensures |s| == 5 ==>
              StringOf(Cons(s[0], Cons(s[1], Cons(s[2], Cons(s[3], Cons(s[4], rest)))))) == s + StringOf(rest)
  {
    if |s| == 3 {
      assert StringOf(Cons(s[2], rest)) == [s[2]] + StringOf(rest);
      assert StringOf(Cons(s[1], Cons(s[2], rest))) == [s[1], s[2]] + StringOf(rest);
    } else if |s| == 4 {
      var tail := s[1..];
      ShortString(tail, rest);
      assert s == [s[0]] + tail;
    } else if |s| == 5 {
      var tail := s[1..];
      ShortString(tail, rest);
      assert s == [s[0]] + tail;
    }
  }

  lemma {:induction false} QuotedShown(v: string, i: nat, rest: List<char>)
    requires i <= |v|
    ensures StringOf(QuotedText(Listed(v, i), rest)) == Doubled(v[i..]) + ("'" + StringOf(rest))
    decreases |v| - i
  {
    if i < |v| {
      QuotedShown(v, i + 1, rest);
      assert v[i..][1..] == v[i + 1..];
      ShortString("'\\''", QuotedText(Listed(v, i + 1), rest));
    }
  }

  lemma {:induction false} AppendedString(a: List<char>, b: List<char>)
    ensures StringOf(Append(a, b)) == StringOf(a) + StringOf(b)
  {
    if a.Cons? {
      AppendedString(a.tail, b);
    }
  }

  lemma {:induction false} ShownQuoted(v: string)
    ensures Shown(v) == if v == "" || NeedsQuotes(v) then "'" + Doubled(v) + "'" else v
  {
    assert NeedsQuotes(v) <==>
           exists i :: 0 <= i < |v| && (v[i] == ' ' || '\t' <= v[i] <= '\r' || v[i] in {'|', '&', ';', '<', '>'});
  }

  lemma {:induction false} WordShown(v: string, rest: List<char>)
    ensures StringOf(WordText(v, rest)) == Shown(v) + StringOf(rest)
  {
    hide NeedsQuotes, Shown;
    ShownQuoted(v);
    if v == "" || NeedsQuotes(v) {
      QuotedShown(v, 0, rest);
      assert v[0..] == v;
      assert "'" + (Doubled(v) + ("'" + StringOf(rest))) == "'" + Doubled(v) + "'" + StringOf(rest);
    } else {
      AppendedString(Listed(v, 0), rest);
      StringOfListed(v, 0);
    }
  }

  lemma {:induction false} ShownByText(text: string, v: string)
    requires Listed(text, 0) == WordText(v, Nil)
    ensures text == Shown(v)
  {
    hide Shown, WordText;
    StringOfListed(text, 0);
    WordShown(v, Nil);
    assert text[0..] == text && Shown(v) + "" == Shown(v);
  }

  lemma {:induction false} Regrouped(a: string, b: string, c: string, d: string)
    ensures a + (b + (c + d)) == a + b + c + d
  {
  }

  lemma {:induction false} WordsShown(args: seq<string>, i: nat, rest: List<char>)
    requires i <= |args|
    ensures StringOf(ArgsText(args, i, rest)) == ShownWords(args, i) + StringOf(rest)
    decreases |args| - i
  {
    hide Shown, WordText;
    if i < |args| {
      WordsShown(args, i + 1, rest);
      WordShown(args[i], ArgsText(args, i + 1, rest));
      Regrouped(if i > 0 then " " else "", Shown(args[i]), ShownWords(args, i + 1), StringOf(rest));
    }
  }

  lemma {:induction false} ErrorShown(c: Command, rest: List<char>)
    ensures StringOf(ErrorText(c, rest)) == ShownError(c) + StringOf(rest)
  {
    hide Shown, WordText;
    WordShown(c.errorFile, rest);
    ShortString(if c.appendError then " 2>> " else " 2> ", WordText(c.errorFile, rest));
  }

  lemma {:induction false} OutputShown(c: Command, rest: List<char>)
    ensures StringOf(OutputText(c, rest)) == ShownOutput(c) + (ShownError(c) + StringOf(rest))
  {
    hide Shown, WordText, ErrorText, ShownError;
    ErrorShown(c, rest);
    WordShown(c.outputFile, ErrorText(c, rest));
    ShortString(if c.appendOutput then " >> " else " > ", WordText(c.outputFile, ErrorText(c, rest)));
  }

  lemma {:induction false} InputShown(c: Command, rest: List<char>)
    ensures StringOf(InputText(c, rest)) == ShownInput(c) + (ShownOutput(c) + (ShownError(c) + StringOf(rest)))
  {
    hide Shown, WordText, OutputText, ShownOutput, ShownError;
    OutputShown(c, rest);
    WordShown(c.inputFile, OutputText(c, rest));
    ShortString(" < ", WordText(c.inputFile, OutputText(c, rest)));
  }

  lemma {:induction false} CommandShown(c: Command, rest: List<char>)
    ensures StringOf(CommandText(c, rest)) == ShownCommand(c) + StringOf(rest)
  {
    hide ShownWords, ShownInput, ShownOutput, ShownError, InputText, ArgsText;
    WordsShown(c.args, 0, InputText(c, rest));
    InputShown(c, rest);
  }

  lemma {:induction false} CommandsShown(cs: seq<Command>, i: nat)
    requires i <= |cs|
    ensures StringOf(CommandsText(cs, i, Nil)) == ShownCommands(cs, i)
    decreases |cs| - i
  {
    hide ShownCommand, CommandText;
    if i < |cs| {
      CommandsShown(cs, i + 1);
      CommandShown(cs[i], CommandsText(cs, i + 1, Nil));
      ShortString(" | ", CommandText(cs[i], CommandsText(cs, i + 1, Nil)));
    }
  }
}
