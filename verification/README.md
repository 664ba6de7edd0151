# A verified model of the shell

This project models the command language, job control, pipeline launching, sandbox start, tracer and size parsing of a
Linux shell written in C++, and proves what these parts promise. Code that works in place is modelled in place: the
parser, the job control object, processes with their descriptor tables and owning descriptor handles are classes; the
lexer, the formatter, the executor's loop, the tracer's stop loop and the size parsers are methods with loops. Each
method is proved against a specification function or a relation, and the results below are proved about those, for every
input and every run.

| file | contents |
|---|---|
| `Syntax.dfy` | tokens, commands, plans, and lists as the specification sees them |
| `Lexer.dfy` | the lexer, and the reading `Lexed` it computes |
| `LexicalGrammar.dfy` | the lexical grammar, and that its texts lex to the tokens they denote |
| `LexicalReadings.dfy` | lines that end in a fault, and what lexing returns for every line |
| `LexerProperties.dfy` | lexing composes over blanks; the shape of every token list |
| `Parser.dfy` | the recursive-descent parser object |
| `Grammar.dfy` | the grammar of command lists, that parsing decides it, printing of plans |
| `GrammarFaults.dfy` | the streams outside the grammar, and which error each gets |
| `CommandLine.dfy` | lexing and parsing together |
| `Display.dfy` | the text of a job's command line |
| `RoundTrip.dfy` | when that text reads back as what it displays |
| `Execution.dfy` | the loop over a plan's steps, and the tree of and-or lists it stands for |
| `Descriptors.dfy` | descriptor tables, `pipe`, `dup2`, `close`, `fork`, the owning handle |
| `Pipes.dfy` | creating, wiring and closing the pipes of a pipeline |
| `JobTable.dfy` | the job table as a value |
| `StatusWord.dfy` | the status word of `waitpid` and what is read off it |
| `JobControl.dfy` | the job control object |
| `JobRuns.dfy` | job control as a state machine over all interleavings with the kernel |
| `JobInvariants.dfy`, `JobSafety.dfy` | the invariant of that machine and that each step keeps it |
| `JobTheorems.dfy` | what follows for every reachable state, and that the object's methods are runs of the machine |
| `JobNews.dfy` | what the user is told: notifications, the listing, the current job, terminal modes |
| `Sandbox.dfy` | the handshake between supervisor and worker |
| `Tracer.dfy` | the stop loop of the system call tracer and its summary |
| `Sizes.dfy` | the two parsers of byte sizes |

How the parts meet: `Lex`, `Parser.Run`, `ParseLine` and the formatting methods are proved equal to `Lexed`,
`ParsedFrom`, `ParsedLine` and `CommandsText`; the grammars, the composition law and the round trips are theorems about
these functions. The methods of the job control object are proved equal to operations on table values; the state
machine of `JobRuns.dfy` is built from the same operations, and `ForegroundRefines` and `WaitingRecords` show that the
loops of the object are runs of the machine however child events interleave with them.

Assumptions about the outside, each a parameter or an environment step: `fork` returns no pid that the table still
records (`EventReachesNewJob` says what that is needed for); terminal calls of an interactive shell succeed. Nothing is
assumed about the descriptors the shell has open: `LaunchPipeline` and `PipeIsolation` hold for every table.

Findings about the code:

- A displayed word reads back as itself exactly when it contains a blank or operator character or contains no quote
  and no backslash (`QuoteExact`); other words are shown without quotes, and then fail to lex or come back shorter. A
  pipeline with safe file names is restored by parsing its display exactly when every argument is safe
  (`RoundTripExact`).
- Behind a leading blank, and only there, the sandbox's size parser reads a minus sign, and negates the number within 64
  bits (`MinusExact`); `SandboxForm` and `SandboxExact` say exactly what every text means to it.
- A pipe end reaches its stage exactly when the shell has that standard stream open; a closed stream stays closed in
  every stage, whatever is piped or redirected to it (`PipeIsolation`, `LaunchPipeline`). A lone command whose file is
  opened below a closed stream is the one exception: it gets that stream, or the output file as its error stream
  (`SettledExact`, `StreamsDisorderly`).
- On a token list that ends in a word the parser would read that word without end; `Parse` covers every list on which
  it does not reach one. The lexer returns no such list.
- A sandboxed program can run without its supervisor, but only when the supervisor died before the worker first looked
  at its parent (`ProgramSupervised`, `UnsupervisedProgram`).
- A list that ends in `;` is rejected, `&` puts only the last pipeline of an and-or list in the background, and a
  backslash before a newline keeps the newline. Section 2 of POSIX XCU asks otherwise in each case; the model follows
  the code.

## Model

| member | source | states |
|---|---|---|
| `Lexer.Lex` | src/lexer.cpp:18-135 | The loop returns exactly the tokens and the error of the reading `Lexed`, on every input; `LexExact` and `LexFaultExact` say what that is. |
| `Lexer.EscapedText` | src/lexer.cpp:46-57 | Inside double quotes a backslash is kept except before double quote, backslash, dollar, backquote and newline; outside it is dropped. |
| `Lexer.RecognizeOperator` | src/lexer.cpp:87-116 | The longest operator at a place, with its text; a leading `1` or `2` counts only where no word has started. |
| `Lexer.ProduceWord` | src/lexer.cpp:8-14 | Flushing adds the pending word, in front of whatever tokens follow, and nothing when none is pending. |
| `LexicalReadings.LexExact` | src/lexer.cpp:18-135 | Lexing succeeds if and only if the line is a text of the lexical grammar, and then gives the tokens of every reading of it. |
| `LexicalReadings.LexFaultExact` | src/lexer.cpp:36-45 | Lexing fails if and only if the line is lexemes followed by a fault, and then returns the message of every such fault and the tokens before it. |
| `LexicalGrammar.Complete` | src/lexer.cpp:33-134 | Scanning the text of any well-formed list of lexemes, in the middle of a word or not, yields its tokens without error. |
| `LexicalReadings.CompleteFault` | src/lexer.cpp:123-130 | Lexemes followed by an escape of nothing or an open quote give the tokens before it and the message of that fault. |
| `LexicalReadings.Sound` | src/lexer.cpp:33-134 | Every text is pieces continuing a word, well-formed lexemes, and then nothing or one fault. |
| `LexicalGrammar.ScanPieces` | src/lexer.cpp:36-74 | Quoted, escaped and bare pieces side by side form one word whose value is the concatenation of theirs. |
| `LexicalReadings.OperatorSpelled` | src/lexer.cpp:81-120 | Every operator the lexer finds is one of the grammar's spellings and stands in front of what remains. |
| `LexerProperties.LexComposes` | src/lexer.cpp:33-134 | If `a` lexes, then `a`, a blank and `b` lex to the tokens of `a` without End and those of `b` moved by the length of `a` plus one, and fail exactly as `b` does. |
| `LexerProperties.ScanShifted` | src/lexer.cpp:18-135 | Starting further along the line moves every token by that distance and changes nothing else. |
| `LexerProperties.TokensShaped` | src/lexer.cpp:132-133 | A successful token list has one End, in last place; positions increase strictly; an operator's text is the slice of the input at its position. |
| `Parser.Parser.constructor` | src/parser.cpp:8-8 | A parser over any non-empty list starts at its first token and sees the list, with a last token that is not End seen again. |
| `Parser.Parser.Advance` | src/parser.cpp:158-162 | Moves to the next token and stays at the last; before that, it drops the first remaining symbol. |
| `Parser.Parser.ParseCommand` | src/parser.cpp:93-149 | The command and the remaining tokens, or the error, of `CommandFrom`; the command is the one the tokens spell, with the last redirection of each stream winning. |
| `Parser.CommandSpelled` | src/parser.cpp:93-149 | The arguments are the words that are not file names, in order; each stream goes to the file of its last redirection, which alone says whether to append. |
| `Parser.Parser.ParsePipeline` | src/parser.cpp:70-91 | The commands and the remaining tokens, or the error, of `PipelineFrom`; tokens are used up on success. |
| `Parser.Parser.Run` | src/parser.cpp:10-67 | The steps and the error of `ParsedFrom`, in bounds and terminating, on every list whose last word, if it ends in one, is not reached. |
| `Parser.PipelineEnds` | src/parser.cpp:54-57 | After a parsed pipeline stands a list operator, `&` or End, so no token is ever unexpected there. |
| `Parser.CommandEnds` | src/parser.cpp:95-143 | After a parsed command stands a token that is neither a word nor a redirection. |
| `Parser.Parse` | src/parser.cpp:176-181 | The empty list has its own error; any list on which the parser ends is parsed as `ParsedFrom` says, the last token being seen again where it is not End. |
| `Grammar.ParseExact` | src/parser.cpp:10-149 | On token lists with one End in last place, parsing succeeds if and only if the grammar derives the list, and then gives the plan of every derivation. |
| `GrammarFaults.ParseFaultExact` | src/parser.cpp:19-64 | Parsing fails if and only if the list has a broken tree, and then keeps the steps before the fault and reports the error of the fault: no file name, no command, nothing after a pipe or after an operator. |
| `GrammarFaults.PlanBroken` | src/parser.cpp:19-64 | Whatever does not parse is the yield of some broken tree. |
| `Grammar.PlanParsed` | src/parser.cpp:10-67 | The tokens of any valid plan tree parse to its meaning. |
| `Grammar.PlanTree` | src/parser.cpp:10-67 | Whatever parses is the yield of some valid plan tree. |
| `Grammar.CommandParsed` | src/parser.cpp:93-149 | The tokens of any items, in any order, with at least one word, parse to the meaning of the items. |
| `Grammar.CommandMeaning` | src/parser.cpp:104-141 | That meaning: the words in order, and for each stream the file and the kind of the last item that redirects it. |
| `Grammar.AcceptedPlan` | src/parser.cpp:10-67 | An accepted plan starts with Always, has Always after each background step, no empty pipeline, no command without words, and defaults in every unused redirection field. |
| `Grammar.PrintThenParse` | src/parser.cpp:10-149 | Printing any plan of the shape `AcceptedPlan` guarantees to tokens and parsing them gives the plan back. |
| `Grammar.ParsePrintParse` | src/parser.cpp:10-149 | Parsing any accepted list, printing the plan and parsing again gives the same plan. |
| `Grammar.AcceptableExact` | src/parser.cpp:10-149 | The plans of that shape are exactly the plans the parser returns. |
| `CommandLine.ParseLine` | src/parser.cpp:183-189 | A lexing error comes back with no steps, otherwise the plan of the tokens; a successful plan is of the accepted shape, unused fields included. |
| `LexerProperties.ShapedProper` | src/lexer.cpp:132-133 | Every token list that lexing returns is one the parser's theorems are about. |
| `Display.QuoteForDisplay` | src/executor.cpp:110-137 | The word itself unless it is empty or has a blank or operator character; then in single quotes, with each single quote inside written as four characters. |
| `Display.FormatCommand` | src/executor.cpp:139-159 | The displayed words separated by blanks, then input, output and error redirections with their operators and displayed file names. |
| `Display.FormatPipeline` | src/executor.cpp:161-170 | The displayed commands joined by a blank, a pipe sign and a blank, as a string and as the text the round trips are about. |
| `RoundTrip.QuoteExact` | src/executor.cpp:110-137 | The displayed word lexes to that one word if and only if it has a blank or operator character in it or has no quote and no backslash; otherwise lexing fails or gives one shorter word. |
| `RoundTrip.WordExact` | src/executor.cpp:115-136 | In front of any text that ends a word, a displayed word reads back as itself, and the rest as the rest, if and only if the word is safe. |
| `RoundTrip.DisplayExact` | src/executor.cpp:161-170 | A displayed pipeline lexes back to its own tokens if and only if every word and file name in it is safe. |
| `RoundTrip.PipelineRoundTrip` | src/executor.cpp:110-170 | Displaying and parsing any pipeline of safe, canonical, non-empty commands gives one Always step with that pipeline in the foreground. |
| `RoundTrip.RoundTripExact` | src/executor.cpp:110-170 | For canonical, non-empty commands with safe file names, parsing the display gives the pipeline back if and only if every argument is safe. |
| `RoundTrip.UnsafeArgumentLost` | src/executor.cpp:115-145 | Where the first unsafe word displayed is an argument, parsing the display does not give the pipeline back, whatever follows it. |
| `Execution.Execute` | src/executor.cpp:227-244 | For every behaviour of the pipelines, the result is that of the and-or trees; turn by turn, a step runs if it is the first or the last status calls for it, and nothing follows a request to exit. |
| `Execution.FlatMeansNested` | src/executor.cpp:74-84 | Skipping by the last status is evaluating left-associative and-or trees one after the other. |
| `Execution.PlanMeansGrammar` | src/parser.cpp:16-65 | The trees that execution evaluates are those the parsed line spells: each operator joins what stands on its sides. |
| `Descriptors.Process.Open` | src/executor.cpp:29-36 | An opened file gets the lowest descriptor not in use. |
| `Descriptors.Process.Pipe` | src/executor.cpp:327-332 | A pipe takes the two lowest unused descriptors, the read end the lower. |
| `Descriptors.Process.Dup2` | src/executor.cpp:38-46 | The target refers to what the source refers to; equal numbers change nothing. |
| `Descriptors.Process.Close` | src/include/unique_fd.hpp:37-42 | Closing removes a descriptor and demands that it is open, so nothing is ever closed twice. |
| `Descriptors.Process.Fork` | src/executor.cpp:346-356 | A child starts with a copy of the table and of the handles. |
| `Descriptors.UniqueFd.Release` | src/include/unique_fd.hpp:31-35 | Gives the descriptor up without closing it. |
| `Descriptors.UniqueFd.Reset` | src/include/unique_fd.hpp:37-42 | Closes exactly what was owned and owns the new descriptor. |
| `Descriptors.UniqueFd.MoveFrom` | src/include/unique_fd.hpp:20-25 | The descriptor changes hands, the source is left empty, only the one given up is closed; moving to itself changes nothing. |
| `Pipes.CloseAllPipes` | src/executor.cpp:48-53 | Closes exactly what the handles own and leaves every handle empty; a second call changes nothing. |
| `Pipes.CreatePipes` | src/executor.cpp:323-334 | Adds the ends of the pipes created before the first refusal, and nothing else; their numbers grow and leave no gap below them. |
| `Pipes.WireStreams` | src/executor.cpp:214-216 | The three copies in source order, each only where its descriptor is not already in place. |
| `Pipes.ConfigureChildIo` | src/executor.cpp:172-219 | For every table of the shell, the stage ends with exactly its stage table if and only if it is orderly; fails exactly when a redirection does. |
| `Pipes.OpenRedirects` | src/executor.cpp:179-212 | Opens the files in turn, each at the lowest free descriptor and owned by its handle, and stops at the first that fails. |
| `Pipes.Duplicate` | src/executor.cpp:38-46 | The target refers to what the source refers to; equal numbers change nothing. |
| `Pipes.SettledExact` | src/executor.cpp:172-219 | Wiring and closing leave the shell's descriptors with the open standard streams replaced if and only if several commands are piped or no file of a lone command is opened below its closed stream. |
| `Pipes.StreamsDisorderly` | src/executor.cpp:179-216 | In the other case the stage gets a stream the shell had closed, or the output file as its error stream. |
| `Pipes.LaunchPipeline` | src/executor.cpp:323-403 | On every return the shell's descriptors are those at entry. All stages are launched unless a pipe is refused, which leaves none, or a fork, which leaves exactly those before it; each stage is a process of its own with exactly its stage table if and only if it is orderly. |
| `Pipes.ExecuteParentBuiltin` | src/executor.cpp:264-306 | A builtin in the shell runs if and only if its files open, and on every return the shell's descriptors are those at entry. |
| `Pipes.ExecutePipeline` | src/executor.cpp:308-419 | On every return the shell's descriptors are those at entry; a pipeline is empty, runs in the shell, or is launched, complete if and only if no pipe and no fork is refused, with one fresh process per stage. |
| `Pipes.PipeIsolation` | src/executor.cpp:172-219 | The write end of pipe `j` is open only in stage `j` as its output, and is there if and only if the shell has an output and the stage does not redirect it; the read end likewise in stage `j + 1`; neither in the shell. |
| `Pipes.FileIsolation` | src/executor.cpp:183-212 | A redirection file is open in its own stage only, as the stream it is for, if and only if the shell has that stream. |
| `JobControl.JobControl.constructor` | src/include/job_control.hpp:72-77 | An empty table whose first id is 1, with the terminal the shell's. |
| `JobControl.JobControl.OnSigchld` | src/job_control.cpp:16-20 | The handler sets the flag and touches nothing else. |
| `JobControl.JobControl.AddJob` | src/job_control.cpp:133-148 | Appends a running job with the next id, the given command, one running record per pid, status 0 and no change marked. |
| `JobControl.JobControl.FindJob` | src/job_control.cpp:150-160 | The first job with that id, or none. |
| `JobControl.JobControl.ResolveJob` | src/job_control.cpp:162-177 | An empty spec means the last job that is not done, a negative one none, any other the job with that id. |
| `JobControl.JobControl.RecomputeState` | src/job_control.cpp:179-206 | Done if all records are done, else running if one runs, else stopped; a change is marked. |
| `JobControl.JobControl.UpdateProcess` | src/job_control.cpp:208-233 | The first record of the pid takes the status, the last command's status is kept unless it continued, and no other job changes; `LastStatus` gives the number kept. |
| `JobControl.JobControl.GiveTerminalTo` | src/job_control.cpp:235-243 | An interactive shell hands over the terminal, with the job's modes if there are any. |
| `JobControl.JobControl.ReclaimTerminal` | src/job_control.cpp:245-251 | An interactive shell takes the terminal back with its own modes. |
| `JobControl.JobControl.MarkContinued` | src/job_control.cpp:261-268 | Stopped records and the job run again, done records stay done, and no change is marked. |
| `JobControl.JobControl.WaitWhileRunning` | src/job_control.cpp:275-295 | Records statuses in the order collected until the job no longer runs, and not one more. |
| `JobControl.JobControl.Conclude` | src/job_control.cpp:297-326 | A stopped job keeps the modes and is marked as seen, a done one leaves the table; the status is never 0 for a stopped job. |
| `JobControl.JobControl.WaitForeground` | src/job_control.cpp:253-327 | Table and status are those of `ForegroundOutcome`, including the missing job and the failed continue, and the terminal is the shell's again. |
| `JobControl.JobControl.BringToForeground` | src/job_control.cpp:329-341 | Reaps quietly, refuses a missing or done job without touching the terminal, and otherwise waits for the job, continuing it if it is stopped. |
| `JobControl.JobControl.ContinueBackground` | src/job_control.cpp:343-368 | Reaps quietly, refuses a missing or done job, continues a stopped one unless the signal cannot be sent, leaves a running one. |
| `JobControl.JobControl.NotifyAndCleanupDoneJobs` | src/job_control.cpp:370-396 | Reports every changed job that is stopped or done, in order, drops the done ones and marks the rest as seen. |
| `JobControl.JobControl.ReapBackground` | src/job_control.cpp:398-420 | With the flag set, clears it and records every collected status; then notifies if asked. |
| `JobControl.JobControl.RenderJobs` | src/job_control.cpp:422-444 | Lists the jobs that are not done, in order, with the current one marked. |
| `StatusWord.DecodeWaitStatus` | src/job_control.cpp:38-49 | From the word of an exit its code, of a death or stop by a signal 128 plus the signal, of a continue 0. |
| `StatusWord.StateFrom` | src/job_control.cpp:219-225 | From the word of an exit or death the state done, of a stop stopped, of a continue running. |
| `StatusWord.WaitStatusToExitCode` | src/trace.cpp:769-773 | From the word of an exit its code, of a death 128 plus the signal, of anything else 1. |
| `StatusWord.TestsTell` | src/job_control.cpp:38-49 | Exactly one of the four tests holds of every word the kernel writes, and it tells what was reported. |
| `StatusWord.ExitsMistaken` | src/job_control.cpp:38-49 | The status of an exit is also that of some death by signal if and only if the code is from 129 to 254. |
| `JobSafety.InvHolds` | src/job_control.cpp:133-420 | Every run of launches, child events, signals, reaping, notification, `fg` and `bg` keeps the invariant from which the theorems follow. |
| `JobTheorems.TableReplaysHistory` | src/job_control.cpp:179-233 | In every reachable state each record is what the last event of its pid, or a later continue, leaves, and a job is done, running or stopped as its records say. |
| `JobTheorems.NoLostEvent` | src/job_control.cpp:398-415 | Outside the drain loop, an uncollected child event has the flag set or the signal on its way. |
| `JobTheorems.DrainCollectsAll` | src/job_control.cpp:401-415 | When a drain ends, every record that is not done belongs to a living child with nothing left to collect. |
| `JobTheorems.ForegroundHasChild` | src/job_control.cpp:289-291 | While the foreground job runs its group has a child, so the wait cannot fail for want of one. |
| `JobTheorems.ForegroundResult` | src/job_control.cpp:275-326 | The wait ends only with the job stopped or done. Done, the job is gone and the result is the exit code of its last command or 128 plus the signal that killed it, in every order of events. Stopped, it is 128 plus the stop signal of the last command, or its final status if it had ended, with 148 for 0. |
| `JobTheorems.LastStatus` | src/job_control.cpp:227-229 | The status kept for a job that is not running is the number its last command's end or stop stands for. |
| `JobTheorems.WaitTouchesOnlyForeground` | src/job_control.cpp:275-284 | Collecting for the foreground job leaves every other job alone. |
| `JobTheorems.DoneReportedOnce` | src/job_control.cpp:370-396 | Each notification reports every done job, for the first time, reports no other as done, and leaves none. |
| `JobNews.NoticesExact` | src/job_control.cpp:370-396 | In every run a notification reports exactly the done jobs and those stopped jobs whose stop the user has not been told, by a notification or at the end of a foreground wait; each once, in the order of ids. |
| `JobTheorems.NeverBoth` | src/job_control.cpp:321-325 | No job both finishes in the foreground and is announced, and either way it never comes back to the table. |
| `JobTheorems.TerminalOwnership` | src/job_control.cpp:235-303 | The foreground job's group owns the terminal during the wait; at all other times the shell does, in its own modes. |
| `JobTheorems.ForegroundRestoresModes` | src/job_control.cpp:259-259 | `fg` puts back the modes saved when the job last stopped in the foreground, or else leaves the shell's. |
| `JobNews.ModesComeBack` | src/job_control.cpp:259-303 | The modes the terminal had when a job stopped in the foreground are those it has when `fg` next hands it over, whatever happens in between. |
| `JobTheorems.IdsNeverReused` | src/job_control.cpp:137-147 | Ids increase along the table and every id given so far is below the next. |
| `JobTheorems.CurrentIsNewest` | src/job_control.cpp:171-176 | The job an empty spec means is the live job with the greatest id. |
| `JobNews.ResolvedJob` | src/job_control.cpp:162-177 | Without a spec `fg` and `bg` act on the live job with the greatest id, with a number on the job of that id, and on none where there is none. |
| `JobTheorems.ListingMarksNewest` | src/job_control.cpp:422-444 | In every reachable state the listing shows each live job, no done one, and marks exactly the one with the greatest id. |
| `JobNews.ListingInOrder` | src/job_control.cpp:432-443 | The listing shows each live job once, in the order of ids, with its state and command, and nothing else. |
| `JobTheorems.EventReachesNewJob` | src/job_control.cpp:208-216 | An event reaches a new job if and only if no earlier job still records the pid. |
| `JobTheorems.WaitingRecords` | src/job_control.cpp:275-284 | However child events interleave with the collecting, the table ends as recording the collected statuses in order. |
| `JobTheorems.ForegroundTakesAll` | src/job_control.cpp:275-284 | Each status is collected while the job still runs, so the loop takes every one. |
| `JobTheorems.ForegroundRefines` | src/job_control.cpp:253-327 | Over any interleaving, the machine's `fg` ends with the table and status the object's method computes. |
| `JobTheorems.ForegroundFails` | src/job_control.cpp:254-272 | Without the job, or where it cannot be continued, machine and method end at once with the same table and status 1. |
| `JobTheorems.BackgroundContinues` | src/job_control.cpp:351-362 | `bg` makes every process of a stopped job that is not done running, and touches nothing else. |
| `Sandbox.InvHolds` | src/sandbox.cpp:664-719 | Every interleaving of supervisor and worker, with failures and deaths at any point, keeps the handshake's invariant. |
| `Sandbox.HistoryHolds` | src/sandbox.cpp:664-719 | What a state records of the attach, the release, the start and the two ends is what happened in the run. |
| `Sandbox.StartsOnlyReleased` | src/sandbox.cpp:678-711 | In every run each start of the program comes after a successful attach and, after that, a successful write of the token. |
| `Sandbox.NeverStarts` | src/sandbox.cpp:697-711 | No run in which the attach or the write failed starts the program. |
| `Sandbox.NeverStartsAfterDeath` | src/sandbox.cpp:683-693 | Nor does one in which the supervisor died before the write. |
| `Sandbox.SuccessMeansStarted` | src/sandbox.cpp:706-719 | In every run that ends with a supervisor returning 0, the attach and the write succeeded, the program started, and it ended with 0. |
| `Sandbox.SuccessReachable` | src/sandbox.cpp:664-719 | There is such a run. |
| `Sandbox.ReturnedCode` | src/sandbox.cpp:697-719 | The supervisor returns 1 if its wait or the attach failed, and otherwise the code its worker ended with. |
| `Sandbox.ProgramCodeHandedOn` | src/sandbox.cpp:713-719 | If the program ended, or setting it up failed, with some code, a supervisor that returns without a failed wait returns that code. |
| `Sandbox.NoDeadlock` | src/sandbox.cpp:683-711 | Until both are done one of the two can move: the worker's read always gets the token or the end of the pipe. |
| `Sandbox.RankFalls` | src/sandbox.cpp:664-719 | Every step brings the handshake closer to its end. |
| `Sandbox.RunsAreBounded` | src/sandbox.cpp:664-719 | No run is longer than the rank of the start, so neither side waits forever. |
| `Sandbox.ProgramSupervised` | src/sandbox.cpp:679-682 | The program runs under a living supervisor if and only if the worker still saw it when it recorded its parent. |
| `Sandbox.UnsupervisedProgram` | src/sandbox.cpp:679-682 | A run in which it did not: the supervisor dies between the release and that moment. |
| `Tracer.Trace` | src/trace.cpp:804-880 | Each resume passes the signal of the stop before it unless that is 5, 19 or 133, and 0 otherwise; the counted and the printed calls are the exits paired with an open entry; the code is the exit code, 128 plus the signal, or 1 on a failure; the summary comes with the end. |
| `Tracer.RenderSummary` | src/trace.cpp:703-738 | One row per system call seen, more calls first and then by name, and totals that are the sums of the rows. |
| `Tracer.SortRows` | src/trace.cpp:717-720 | The rows in that order, none lost or doubled, with the same sums. |
| `Tracer.SummaryTotals` | src/trace.cpp:709-716 | The sums of the rows are the number of completed calls and of those that returned from -4095 to -1. |
| `Tracer.NotedTallies` | src/trace.cpp:853-855 | Counting one more call keeps each number's calls and errors exact. |
| `Tracer.ErrorsWithinCalls` | src/trace.cpp:854-855 | No system call has more errors than calls. |
| `Tracer.ExitTurn` | src/trace.cpp:850-864 | An exit completes the open entry's call and closes it; without one it counts nothing. |
| `Tracer.EntryTurn` | src/trace.cpp:842-849 | An entry replaces whatever entry was open and completes no call. |
| `Sizes.ParseRunSize` | src/resource_control.cpp:35-78 | Accepts exactly digits with a known unit in any case whose true product fits 64 bits, and returns that product. |
| `Sizes.RunSplitUnique` | src/resource_control.cpp:40-46 | A text has at most one reading as digits and unit, the one that splits after the last leading digit. |
| `Sizes.UpperCase` | src/resource_control.cpp:53-58 | The suffix with its lower-case letters replaced, in place. |
| `Sizes.GuardExact` | src/resource_control.cpp:73-75 | The dividing guard fires if and only if the product exceeds the bound. |
| `Sizes.UnitsMean` | src/resource_control.cpp:60-71 | Which units there are, in both parsers, and that K, M and G stand for 2 to the power of 10, 20 and 30. |
| `Sizes.DigitsRead` | src/resource_control.cpp:18-33 | A string of digits is read as its value, or refused when it exceeds 64 bits. |
| `Sizes.DecimalValue` | src/resource_control.cpp:24-28 | The value of the decimal notation of a number is that number. |
| `Sizes.DecimalUnique` | src/resource_control.cpp:24-28 | A string of digits without leading zeros is the decimal notation of its value. |
| `Sizes.ParseSandboxSize` | src/sandbox.cpp:51-79 | Accepts exactly a number with one of the sandbox's units whose true product fits 64 bits, and returns that product. |
| `Sizes.Suffix` | src/sandbox.cpp:62-68 | What the chain of tests cuts off is a unit of the sandbox, with its factor. |
| `Sizes.SandboxSplitUnique` | src/sandbox.cpp:57-68 | A text has at most one reading as number and unit, the one the chain of tests finds. |
| `Sizes.SizesAgree` | src/sandbox.cpp:51-79 | On texts that start with a digit the sandbox accepts exactly what `run` accepts with a unit spelled as the sandbox spells it, with the same value. |
| `Sizes.RunNeedsDigit` | src/resource_control.cpp:40-46 | `run` accepts nothing that does not start with a digit. |
| `Sizes.SandboxSkipsLead` | src/sandbox.cpp:32-49 | The sandbox reads past blanks and a plus in front of a number. |
| `Sizes.MinusExact` | src/sandbox.cpp:32-49 | A text of blanks, a minus and a rest is accepted if and only if there is a blank and the rest is digits within 64 bits and a unit; it means the negated number times the unit. |
| `Sizes.SandboxForm` | src/sandbox.cpp:32-79 | Every accepted text is blanks, a sign or none, and a rest that starts with a digit. |
| `Sizes.SandboxExact` | src/sandbox.cpp:32-79 | What such a text means: the number written, as `run` reads it, unless the sign is a minus; exactly when it means anything. |

## Left out

- Parser.Parse: lists on which the parser reaches a last word are excluded, because it would read that word without end; `Lex` returns none.
- Pipes.LaunchPipeline: stages are wired one after another although they run side by side, since their tables are separate; the pipe handles are pairs of numbers in a process's memory, because `fork` copies them, while the redirections of a stage are handle objects.
- Pipes.ExecutePipeline: whether a word names a builtin, what builtins do and the statuses returned are left out; `dup2` of an open descriptor succeeds.
- RoundTrip.RoundTripExact: where the first unsafe word is a file name the loss is proved for the tokens only (`DisplayExact`): a later redirection of the same command overrides an earlier one, and the text behind an unsafe file name is not excluded from spelling one.
- JobControl.JobControl.WaitForeground: `events` is the finite list of returns of `waitpid`; a wait that never returns appears only in the machine. `tcgetattr` of an interactive shell always succeeds.
- JobControl.JobControl.ResolveJob: a spec is a number already; reading its text, and narrowing it to an `int`, is left out.
- JobTheorems.NoLostEvent: the flag is set when the handler runs, so between the event and the handler the signal is on its way and the flag may still be clear.
- Tracer.Trace: `rounds` is a finite part of the stream of stops; fork, the first wait and setting the options come before it and are left out, as are argument rendering, the table of names (a parameter) and the columns.
- Sandbox.SuccessMeansStarted: the program and the first process of its namespace count as the worker; the worker's own wait for that process succeeds.
- Sizes.SandboxSkipsLead: `std::stoull` is modelled as the C standard describes `strtoull` for base 10 in the C locale.
- Outside `StatusWord.dfy` wait statuses are a datatype, not the bits of an `int`, and signals and exit codes are unbounded numbers.
- In the machine, forking the stages and entering the job in the table is one step, so no child event falls between them.
- A pipeline's behaviour in `Execute` is any function of the pipelines run before it; builtins, `exec`, path search and the text they write are left out.
- Real system calls, process groups, signal dispositions, namespaces, mounts and control group files appear only as parameters and environment steps.
- The prompt, line editing, completion, history, `pinfo` and the option loops of `run`, `sandbox` and `trace`: they would add only easy members.
- Locale: blanks are the six of the C locale.
