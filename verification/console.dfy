/**
 The streaming console of the `run` command (ollama/cmd/cli.py): how one
 response is rendered while chunks arrive from the generation engine, and how
 the prompt, standard input and the terminal test choose between a single
 response, the interactive loop and the batch loop.

 Everything observable is an `Event` written to the terminal; an operation is
 a pure function from its inputs to the trace of events it produces.
 */
module Console {
  import opened Options

  /** One entry of a chunk's `choices` list; its `text` key may be missing. */
  datatype Choice = Choice(text: Option<string>)

  /** One item yielded by the engine; a chunk without a `choices` key has the empty list. */
  datatype Chunk = Chunk(choices: seq<Choice>)

  /** How the engine's generator ends after yielding its chunks. */
  datatype Ending = Exhausted | Fails

  /** The finite run of one generator: the chunks it yields, then how it ends. */
  datatype Stream = Stream(chunks: seq<Chunk>, ending: Ending)

  /** The generation engine: the stream produced by the `n`-th call of a
      session (counting from 0) for a prompt. Every call gets its own stream, so
      a repeated prompt may be answered differently; the model name and the
      other options are fixed for the whole session. */
  type Engine = (nat, string) -> Stream

  /** Why an exception leaves the console. */
  datatype Cause =
    | GenerationFailed   // raised by the engine's generator, re-raised after cleanup
    | EndOfInput         // `next(sys.stdin)` at end of input raises StopIteration

  /** What the console writes, in order. */
  datatype Event =
    | Newline            // `print()`
    | SpinnerStart
    | SpinnerStop
    | CR                 // `print("\r", end="")`, erasing the spinner's line
    | Text(s: string)    // one streamed piece of the response
    | Echo(s: string)    // a prompt echo or marker, exactly as written
    | Raise(cause: Cause)

  /** The marker the interactive loop writes before reading each line. */
  const Marker := ">>> "

  /** A chunk whose choices are non-empty: it stops the spinner and prints. */
  predicate Visible(c: Chunk) {
    |c.choices| > 0
  }

  /** `choice.get("text", "")`. */
  function TextOf(c: Choice): string {
    match c.text
    case Some(t) => t
    case None => ""
  }

  /** The text a visible chunk prints: its first choice's `text`, or "" when missing. */
  function FirstText(c: Chunk): string
    requires Visible(c)
  {
    TextOf(c.choices[0])
  }

  /** The body of the `for` loop over the engine's chunks, with the
      `spinner_running` flag as a parameter. */
  function Render(chunks: seq<Chunk>, running: bool): (r: seq<Event>)
    ensures forall i :: 0 <= i < |r| ==> r[i].Text? || r[i] == SpinnerStop || r[i] == CR
    ensures !running ==> forall i :: 0 <= i < |r| ==> r[i].Text?
    ensures SpinnerStop in r ==> running && |r| >= 2 && r[0] == SpinnerStop && r[1] == CR
    decreases |chunks|
  {
    if |chunks| == 0 then []
    else if Visible(chunks[0]) then
      (if running then [SpinnerStop, CR] else [])
      + [Text(FirstText(chunks[0]))]
      + Render(chunks[1..], false)
    else
      Render(chunks[1..], running)
  }

  /** What follows the loop: two newlines after a normal end; after a failure,
      the unconditional `spinner.stop()` and the re-raise. */
  function Trailer(e: Ending): (r: seq<Event>)
    ensures |r| == 2
    ensures r[1].Raise? <==> e == Fails
    ensures Newline in r <==> e == Exhausted
  {
    match e
    case Exhausted => [Newline, Newline]
    case Fails => [SpinnerStop, Raise(GenerationFailed)]
  }

  /** True when a trace ends by an exception leaving the console. */
  predicate Raised(t: seq<Event>) {
    |t| > 0 && t[|t| - 1].Raise?
  }

  /** `generate_oneshot`: a blank line, the spinner, the streamed response, then the trailer. */
  function OneShot(st: Stream): (r: seq<Event>)
    ensures |r| >= 4 && r[0] == Newline && r[1] == SpinnerStart
    ensures Raised(r) <==> st.ending == Fails
    ensures Raised(r) ==> r[|r| - 1] == Raise(GenerationFailed)
  {
    [Newline, SpinnerStart] + Render(st.chunks, true) + Trailer(st.ending)
  }

  /** `generate_oneshot` written as the source writes it: a loop over the
      chunks that keeps the `spinner_running` flag. */
  method RunOneShot(st: Stream) returns (trace: seq<Event>)
    ensures trace == OneShot(st)
  {
    trace := [Newline, SpinnerStart];
    var spinnerRunning := true;
    var i := 0;
    while i < |st.chunks|
      invariant 0 <= i <= |st.chunks|
      invariant trace + Render(st.chunks[i..], spinnerRunning)
             == [Newline, SpinnerStart] + Render(st.chunks, true)
    {
      assert st.chunks[i..][1..] == st.chunks[i + 1..];
      var choices := st.chunks[i].choices;
      if |choices| > 0 {
        if spinnerRunning {
          trace := trace + [SpinnerStop];
          spinnerRunning := false;
          trace := trace + [CR];
        }
        trace := trace + [Text(TextOf(choices[0]))];
      }
      i := i + 1;
    }
    if st.ending == Fails {
      trace := trace + [SpinnerStop, Raise(GenerationFailed)];
      return;
    }
    trace := trace + [Newline, Newline];
  }

  /** `generate_interactive`: write the marker, read a line, stop at an empty
      line, otherwise answer it; an exception from the answer or from reading
      past the end of input ends the loop. `call` numbers the engine calls. */
  function Interactive(lines: seq<string>, engine: Engine, call: nat): (r: seq<Event>)
    ensures |r| >= 1 && r[0] == Echo(Marker)
    ensures Raised(r) || r[|r| - 1] == Echo(Marker)
    decreases |lines|
  {
    if |lines| == 0 then [Echo(Marker), Raise(EndOfInput)]
    else if lines[0] == "" then [Echo(Marker)]
    else
      var shot := OneShot(engine(call, lines[0]));
      [Echo(Marker)] + shot + (if Raised(shot) then [] else Interactive(lines[1..], engine, call + 1))
  }

  /** The echo `print(">>> ", line, end="")` writes: the two arguments joined by a space. */
  function BatchEcho(line: string): (r: string)
    ensures r == ">>>  " + line
    ensures r[|r| - |line|..] == line
  {
    Marker + " " + line
  }

  /** `generate_batch`: echo each input line and answer it, until the input
      ends or an answer raises. */
  function Batch(lines: seq<string>, engine: Engine, call: nat): (r: seq<Event>)
    ensures r == [] <==> lines == []
    ensures lines != [] ==> r[0] == Echo(BatchEcho(lines[0]))
    ensures Raised(r) ==> r[|r| - 1] == Raise(GenerationFailed)
    decreases |lines|
  {
    if |lines| == 0 then []
    else
      var shot := OneShot(engine(call, lines[0]));
      [Echo(BatchEcho(lines[0]))] + shot + (if Raised(shot) then [] else Batch(lines[1..], engine, call + 1))
  }

  /** Python truthiness of `kwargs.get("prompt")`: absent and "" are both false. */
  predicate Truthy(prompt: Option<string>) {
    prompt.Some? && prompt.value != ""
  }

  datatype Mode = SingleMode | InteractiveMode | BatchMode

  /** The branch `generate` takes. */
  function ModeOf(prompt: Option<string>, isTTY: bool): (m: Mode)
    ensures m == SingleMode <==> (prompt.Some? && |prompt.value| > 0)
    ensures m == InteractiveMode <==> (prompt.None? || prompt.value == "") && isTTY
    ensures m == BatchMode <==> (prompt.None? || prompt.value == "") && !isTTY
  {
    if Truthy(prompt) then SingleMode
    else if isTTY then InteractiveMode
    else BatchMode
  }

  /** `generate`: a truthy prompt is echoed and answered once; otherwise the
      terminal test picks the interactive or the batch loop over `lines`. The
      session's engine calls are numbered from 0. */
  function Generate(prompt: Option<string>, isTTY: bool, lines: seq<string>, engine: Engine): (r: seq<Event>)
    ensures r == [] <==> !Truthy(prompt) && !isTTY && lines == []
    ensures Truthy(prompt) ==> |r| >= 2 && r[0] == Echo(">>> " + prompt.value + "\n") && r[1] == Newline
    ensures !Truthy(prompt) && isTTY ==> r[0] == Echo(Marker)
    ensures |r| > 0 && r[|r| - 1] == Raise(EndOfInput) ==> isTTY && !Truthy(prompt)
  {
    match ModeOf(prompt, isTTY)
    case SingleMode => [Echo(Marker + prompt.value + "\n")] + OneShot(engine(0, prompt.value))
    case InteractiveMode => Interactive(lines, engine, 0)
    case BatchMode => Batch(lines, engine, 0)
  }
}
