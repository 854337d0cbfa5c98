# Streaming console of the `ollama` command line

A Dafny model of the rendering and mode-selection logic of `ollama/cmd/cli.py`:

- `generate_oneshot` renders one response: a blank line, a spinner, then, for
  every chunk with a non-empty `choices` list, the `text` of its first choice;
  finally two blank lines. On an engine failure the spinner is stopped and the
  error re-raised.
- `generate` picks the mode: a non-empty prompt is echoed and answered once;
  otherwise an interactive loop runs when standard input is a terminal and a
  batch loop runs when it is not.
- `generate_interactive` and `generate_batch` answer standard input line by line.
- `search` prints a count-dependent header and the lower-cased model names.
- `CustomHelpFormatter._format_action` drops the first line of the
  sub-command listing.

Each operation is a pure function from its inputs to the trace of `Event`s it
writes (`Newline`, `SpinnerStart`, `SpinnerStop`, `CR`, `Text`, `Echo`,
`Raise`). The engine is a function from the call number within the session
and the prompt to a `Stream`: the chunks it yields and whether it then ends
normally or raises. Each call gets its own stream, so the same prompt can be
answered differently the second time. Standard input is a
sequence of lines. Whether it is a terminal is a boolean parameter.

Files:

- `options.dfy`: `Option`, for the `dict.get` look-ups.
- `console.dfy`: chunks, events, `OneShot`, `RunOneShot`, `Interactive`,
  `Batch`, `ModeOf` and `Generate`.
- `oneshot_lemmas.dfy`: the shape of one response's trace.
- `loop_lemmas.dfy`: which lines the loops answer, and the dispatch.
- `ascii.dfy`: ASCII lower-casing and decimal numerals.
- `search.dfy`: the `search` output.
- `help_format.dfy`: `split`/`join` on newlines and the first-line drop.

Two quirks of the code are kept on purpose:

- When no chunk carries text and the stream ends normally, the spinner is
  never stopped (`NoVisibleNormalEnd`).
- On failure `spinner.stop()` runs unconditionally, so it runs twice when text
  had already arrived (`FailurePath`).

In three places the code behaves in a way that is easy to misread. The model
follows the code:

- The interactive loop reads with `next(sys.stdin)`. At end of input this
  raises `StopIteration` instead of returning, so the trace ends with
  `Raise(EndOfInput)` (`ClosedTerminal`). Only an empty line ends the loop
  normally. Lines read from a real terminal keep their newline, so in practice
  that test never fires.
- An empty prompt counts as absent, because the test is Python truthiness
  (`NoPromptReadsInput`).
- The batch echo `print(">>> ", line, end="")` separates its two arguments with
  a space, so it writes `">>>  " + line` (`BatchEcho`, `PipedTwoLines`).

## Model

| member | source | states |
|---|---|---|
| Console.OneShot | ollama/cmd/cli.py:119-140 | a response starts with a blank line and the spinner; it ends in a raise exactly when the engine fails, and that raise is the generation error |
| Console.Render | ollama/cmd/cli.py:126-133 | the chunk loop emits only text, spinner stops and carriage returns; once the spinner is stopped only text; a spinner stop happens only while it runs, and then opens the output followed by the carriage return |
| Console.Trailer | ollama/cmd/cli.py:134-140 | what follows the loop is two events: it ends in a raise exactly when the engine fails, and holds the newlines exactly when the stream ends normally |
| Console.RunOneShot | ollama/cmd/cli.py:119-140 | the source's loop with the `spinner_running` flag writes exactly the trace of the functional model |
| Console.ModeOf | ollama/cmd/cli.py:107-116 | one-shot mode exactly when the prompt is present and non-empty; otherwise interactive exactly when stdin is a terminal and batch exactly when it is not |
| Console.Interactive | ollama/cmd/cli.py:143-151 | the interactive loop starts with the `>>> ` marker, and ends either by raising or with a marker after which nothing is answered (the empty-line return) |
| Console.BatchEcho | ollama/cmd/cli.py:156 | the batch echo is `>>>`, two spaces, then the line |
| Console.Batch | ollama/cmd/cli.py:154-158 | the batch loop writes nothing exactly when the input is empty, starts with the first line's echo, and can only raise the generation failure, never end of input |
| Console.Generate | ollama/cmd/cli.py:107-116 | nothing is written exactly for an empty, non-terminal input and no prompt; a truthy prompt is echoed as `>>> prompt` and followed by a response; on a terminal without a prompt the marker comes first; the end-of-input raise occurs only on a terminal without a prompt |
| OneShotLemmas.RenderStopped | ollama/cmd/cli.py:126-133 | once the spinner is stopped, the chunk loop emits only text: one per chunk with choices, in order |
| OneShotLemmas.RenderShape | ollama/cmd/cli.py:126-133 | starting with the spinner running, the chunk loop emits the spinner stop and carriage return once, before all text, exactly when some chunk has choices; then one text per such chunk in order |
| OneShotLemmas.OneShotShape | ollama/cmd/cli.py:119-140 | a full response trace is: blank line, spinner start, the stop and carriage return if any chunk has choices, the texts in order, then the two newlines or the stop and the raise |
| OneShotLemmas.FirstVisible | ollama/cmd/cli.py:128-131 | locates the chunk that stops the spinner: the first one with non-empty choices |
| OneShotLemmas.PrintedIsStreamText | ollama/cmd/cli.py:126-133 | the printed text is the first choice's text of every chunk with non-empty choices, in order, a missing text giving ""; chunks with empty choices print nothing |
| OneShotLemmas.StopCount | ollama/cmd/cli.py:128-136 | the spinner is stopped once if any chunk has choices, plus once more if the engine fails |
| OneShotLemmas.StopAtMostOnceNormally | ollama/cmd/cli.py:128-131 | on a normal end the spinner is stopped at most once |
| OneShotLemmas.StopPrecedesText | ollama/cmd/cli.py:128-133 | with visible text, the stop and the carriage return come right after the spinner start, followed by the first visible chunk's text; no text before, only text after until the trailer |
| OneShotLemmas.NoVisibleNormalEnd | ollama/cmd/cli.py:119-140 | with no chunk carrying choices and a normal end, the trace is blank line, spinner start, two newlines, and the spinner is never stopped |
| OneShotLemmas.FailurePath | ollama/cmd/cli.py:134-140 | on failure the trace ends with the stop and the raise; only the leading newline is written; the spinner is stopped twice if text had arrived, once otherwise |
| LoopLemmas.FirstStop | ollama/cmd/cli.py:143-158 | finds the first line at which a loop ends: every earlier line is answered normally and that line stops the loop |
| LoopLemmas.BatchReference | ollama/cmd/cli.py:154-158 | batch mode answers the lines in input order, each after its echo, up to and including the first failing answer, and reads no further |
| LoopLemmas.InteractiveReference | ollama/cmd/cli.py:143-151 | interactive mode answers each line before the first empty line or failing answer, each after the marker; it ends with a marker and then the end-of-input raise, nothing, or the failing answer |
| LoopLemmas.OneShotStartsOnce | ollama/cmd/cli.py:122-123 | each response starts the spinner exactly once, so spinner starts count responses |
| LoopLemmas.BatchAnswerCount | ollama/cmd/cli.py:154-158 | batch mode makes one response per line up to the first failing one |
| LoopLemmas.InteractiveAnswerCount | ollama/cmd/cli.py:143-151 | interactive mode makes one response per line before the stop, plus one for a failing line; an empty line gets none |
| LoopLemmas.PromptIgnoresInput | ollama/cmd/cli.py:107-111 | a non-empty prompt is echoed as `>>> prompt` and answered exactly once, the same whatever stdin holds and whether it is a terminal |
| LoopLemmas.NoPromptReadsInput | ollama/cmd/cli.py:108-116 | an absent or empty prompt runs the interactive loop on a terminal and the batch loop otherwise |
| LoopLemmas.PipedTwoLines | ollama/cmd/cli.py:154-158 | piped lines "a" and "b" give two responses in that order, each after its echo |
| LoopLemmas.RepeatedLineAskedAgain | ollama/cmd/cli.py:154-158 | a line piped twice is sent to the engine twice: if only the second call fails, the batch gives two responses and ends with that failure |
| LoopLemmas.ClosedTerminal | ollama/cmd/cli.py:143-148 | a terminal with closed input gets the marker and the end-of-input raise, and no response |
| Ascii.LowerChar | ollama/cmd/cli.py:172 | an ASCII upper-case letter maps to its lower-case letter; every other character is kept |
| Ascii.Lower | ollama/cmd/cli.py:172 | a lower-cased name keeps its length, holds no upper-case letter, moves each upper-case letter down by 32 and keeps every other character |
| Ascii.LowerFacts | ollama/cmd/cli.py:172 | lower-casing keeps the length, leaves no upper-case letter, keeps other characters and is idempotent |
| Ascii.LowerFixedIff | ollama/cmd/cli.py:172 | a name is unchanged by lower-casing exactly when it has no upper-case letter |
| Ascii.Decimal | ollama/cmd/cli.py:168-170 | the count is rendered as at least one decimal digit with no leading zero |
| Ascii.DecimalRoundTrip | ollama/cmd/cli.py:168-170 | reading the rendered count back gives the count |
| Search.Header | ollama/cmd/cli.py:167-170 | the header is `Found ` then the count, which reads back as the count, and ends in `models:` exactly when the count is not 1 |
| Search.Output | ollama/cmd/cli.py:161-174 | at least one line is printed; with names, one header plus one line per name; a single line holding the no-models or network message exactly when there are no names or the lookup failed; the name lines hold no upper-case letter |
| Search.NoNames | ollama/cmd/cli.py:164-166 | no names prints exactly `No models found.` |
| Search.OneName | ollama/cmd/cli.py:167-172 | one name prints the singular header and the name lower-cased |
| Search.ManyNames | ollama/cmd/cli.py:169-172 | two or more names print the plural header carrying the count, then each name lower-cased, in order |
| Search.LookupFailed | ollama/cmd/cli.py:173-174 | a failed lookup prints only the network message |
| HelpFormat.FirstNewline | ollama/cmd/cli.py:23 | finds the first newline of the help text |
| HelpFormat.Split | ollama/cmd/cli.py:23 | `split("\n")` gives at least one piece and no piece holds a newline |
| HelpFormat.Join | ollama/cmd/cli.py:23 | `"\n".join` starts with the first piece, followed by a newline when there is a second piece; a single piece is returned as is |
| HelpFormat.JoinSplit | ollama/cmd/cli.py:23 | joining the pieces of a split restores the text |
| HelpFormat.SplitJoin | ollama/cmd/cli.py:23 | splitting a join of newline-free pieces gives the pieces back |
| HelpFormat.DropFirstLine | ollama/cmd/cli.py:21-23 | the result is the text after its first newline, or "" when there is none |
| HelpFormat.FormatAction | ollama/cmd/cli.py:18-24 | the sub-command action loses everything up to and including its first newline, or everything if there is none; every other action is unchanged |

## Left out

- Argument parsing, the sub-command wiring in `main` and `os.makedirs` (ollama/cmd/cli.py:27-89): library set-up and file-system I/O.
- The `KeyboardInterrupt`, `KeyError` and `Exception` handlers of `main` (ollama/cmd/cli.py:91-99): process-level signal and I/O behaviour.
- `list_models` (ollama/cmd/cli.py:102-104) prints each name `model.models` returns, and `pull` (ollama/cmd/cli.py:177-179) calls `model.pull` and prints `Up to date.`. Both are thin wrappers around `model`, which is not part of this model.
- `run` (ollama/cmd/cli.py:182-186) pulls the model, prints `Running {name}...` and then calls `generate` with the pulled name. `generate` is modelled as `Console.Generate`; the pull and the `Running` line are not.
- `engine.generate`, `model.search_directory` and `model.pull` are not part of this model. The engine is a function from the call number and the prompt to a finite chunk sequence plus how it ends. A failure after the listed chunks covers every failure position. A generator that never ends is not modelled.
- The spinner animation and the `flush` calls: only the spinner's start and stop are events.
- `sys.stdin.isatty()` is the `isTTY` parameter, and standard input is a finite sequence of lines.
- A chunk's `choices` entries and the chunk itself are dictionaries in the code; only `choices` and `text` are modelled. A chunk without `choices` is the empty list.
- Ascii.LowerChar: lower-cases ASCII only, not full Unicode case mapping as Python's `str.lower` does.
- Ascii.Lower: built on `Ascii.LowerChar`, so it too lower-cases ASCII letters only.
- HelpFormat.FormatAction: the `nargs == PARSER` test is the boolean `isParser`. The formatting done by the base class is not modelled.
