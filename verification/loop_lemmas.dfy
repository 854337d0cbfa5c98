/**
 Facts about the line loops and the mode dispatch of `Console`: which input
 lines are answered, in which order, and what ends each loop. A loop that
 starts at engine call `call` answers its `i`-th line with call `call + i`.
 */
module LoopLemmas {
  import opened Options
  import opened Console
  import OneShotLemmas

  /** Whether a loop ends at `line`, answered by engine call `call`: the
      interactive loop ends at an empty line without answering it; both loops
      end after an answer that raises. */
  predicate Stops(line: string, engine: Engine, interactive: bool, call: nat) {
    (interactive && line == "") || engine(call, line).ending == Fails
  }

  /** The index of the first line at which the loop ends, or `|lines|`. */
  function FirstStop(lines: seq<string>, engine: Engine, interactive: bool, call: nat): (k: nat)
    ensures k <= |lines|
    ensures forall i :: 0 <= i < k ==> !Stops(lines[i], engine, interactive, call + i)
    ensures k < |lines| ==> Stops(lines[k], engine, interactive, call + k)
    decreases |lines|
  {
    if |lines| == 0 || Stops(lines[0], engine, interactive, call) then 0
    else 1 + FirstStop(lines[1..], engine, interactive, call + 1)
  }

  /** One iteration of a loop that answers `line` with engine call `call`: its
      echo, then one response. */
  function Block(line: string, engine: Engine, interactive: bool, call: nat): seq<Event> {
    [Echo(if interactive then Marker else BatchEcho(line))] + OneShot(engine(call, line))
  }

  /** The iterations for `lines`, one after the other in input order, with
      consecutive engine calls from `call`. */
  function Blocks(lines: seq<string>, engine: Engine, interactive: bool, call: nat): seq<Event>
    decreases |lines|
  {
    if |lines| == 0 then []
    else Block(lines[0], engine, interactive, call) + Blocks(lines[1..], engine, interactive, call + 1)
  }

  /** How many lines the batch loop reads: all of them, or up to and including
      the first whose answer raises. */
  function BatchRead(lines: seq<string>, engine: Engine, call: nat): (n: nat)
    ensures n <= |lines|
  {
    var k := FirstStop(lines, engine, false, call);
    if k < |lines| then k + 1 else k
  }

  /** A batch answer that does not raise is followed by the rest of the loop. */
  lemma BatchStep(lines: seq<string>, engine: Engine, call: nat)
    requires |lines| > 0 && !Stops(lines[0], engine, false, call)
    ensures Batch(lines, engine, call)
         == Block(lines[0], engine, false, call) + Batch(lines[1..], engine, call + 1)
  {
  }

  /** A batch answer that raises ends the loop. */
  lemma BatchLast(lines: seq<string>, engine: Engine, call: nat)
    requires |lines| > 0 && Stops(lines[0], engine, false, call)
    ensures Batch(lines, engine, call) == Blocks(lines[..1], engine, false, call)
  {
    assert lines[..1] == [lines[0]];
    assert Blocks(lines[..1], engine, false, call)
        == Block(lines[0], engine, false, call) + Blocks([], engine, false, call + 1);
  }

  /** The batch loop answers every line, in order, each after its echo, up to
      and including the first line whose answer raises; later lines are never read. */
  lemma {:induction false} BatchReference(lines: seq<string>, engine: Engine, call: nat)
    ensures Batch(lines, engine, call) == Blocks(lines[..BatchRead(lines, engine, call)], engine, false, call)
    decreases |lines|
  {
    if |lines| > 0 {
      if Stops(lines[0], engine, false, call) {
        assert FirstStop(lines, engine, false, call) == 0;
        BatchLast(lines, engine, call);
      } else {
        var rest := lines[1..];
        BatchReference(rest, engine, call + 1);
        var n := BatchRead(lines, engine, call);
        var n' := BatchRead(rest, engine, call + 1);
        assert FirstStop(lines, engine, false, call) == FirstStop(rest, engine, false, call + 1) + 1;
        assert n == n' + 1;
        BatchStep(lines, engine, call);
        assert lines[..n][1..] == rest[..n'];
        assert Blocks(lines[..n], engine, false, call)
            == Block(lines[0], engine, false, call) + Blocks(rest[..n'], engine, false, call + 1);
      }
    }
  }

  /** How the interactive loop ends once it reaches the `k`-th line. */
  function InteractiveEnd(lines: seq<string>, k: nat, engine: Engine, call: nat): seq<Event>
    requires k <= |lines|
  {
    if k == |lines| then [Echo(Marker), Raise(EndOfInput)]
    else if lines[k] == "" then [Echo(Marker)]
    else Block(lines[k], engine, true, call + k)
  }

  /** An answered line that does not raise is followed by the rest of the loop. */
  lemma InteractiveStep(lines: seq<string>, engine: Engine, call: nat)
    requires |lines| > 0 && !Stops(lines[0], engine, true, call)
    ensures Interactive(lines, engine, call)
         == Block(lines[0], engine, true, call) + Interactive(lines[1..], engine, call + 1)
  {
  }

  lemma InteractiveEndShift(lines: seq<string>, k: nat, engine: Engine, call: nat)
    requires 0 < k <= |lines|
    ensures InteractiveEnd(lines[1..], k - 1, engine, call + 1) == InteractiveEnd(lines, k, engine, call)
  {
    if k < |lines| {
      assert lines[1..][k - 1] == lines[k];
    }
  }

  /** The interactive loop answers every line before the first empty line or
      failing answer, each after the marker; it then ends with one more marker
      and: an exception when the input is exhausted, nothing at an empty line,
      or the failing answer. */
  lemma {:induction false} InteractiveReference(lines: seq<string>, engine: Engine, call: nat)
    ensures var k := FirstStop(lines, engine, true, call);
      Interactive(lines, engine, call)
      == Blocks(lines[..k], engine, true, call) + InteractiveEnd(lines, k, engine, call)
    decreases |lines|
  {
    if |lines| > 0 {
      var k := FirstStop(lines, engine, true, call);
      if Stops(lines[0], engine, true, call) {
        assert k == 0;
        assert lines[..0] == [];
      } else {
        var rest := lines[1..];
        InteractiveReference(rest, engine, call + 1);
        var k' := FirstStop(rest, engine, true, call + 1);
        assert k == k' + 1;
        InteractiveStep(lines, engine, call);
        assert lines[..k][1..] == rest[..k'];
        assert Blocks(lines[..k], engine, true, call)
            == Block(lines[0], engine, true, call) + Blocks(rest[..k'], engine, true, call + 1);
        InteractiveEndShift(lines, k, engine, call);
      }
    }
  }

  /** Each response starts the spinner exactly once. */
  lemma OneShotStartsOnce(st: Stream)
    ensures multiset(OneShot(st))[SpinnerStart] == 1
  {
    OneShotLemmas.OneShotShape(st);
    var stop: seq<Event> := if OneShotLemmas.HasVisible(st.chunks) then [SpinnerStop, CR] else [];
    var body := OneShotLemmas.TextEvents(OneShotLemmas.VisibleTexts(st.chunks));
    OneShotLemmas.TextEventsCount(OneShotLemmas.VisibleTexts(st.chunks), SpinnerStart);
    assert multiset(stop)[SpinnerStart] == 0;
    assert multiset(Trailer(st.ending))[SpinnerStart] == 0;
    assert OneShot(st) == [Newline, SpinnerStart] + stop + body + Trailer(st.ending);
  }

  /** `n` iterations make `n` responses. */
  lemma {:induction false} BlocksAnswerEach(lines: seq<string>, engine: Engine, interactive: bool, call: nat)
    ensures multiset(Blocks(lines, engine, interactive, call))[SpinnerStart] == |lines|
    decreases |lines|
  {
    if |lines| > 0 {
      BlocksAnswerEach(lines[1..], engine, interactive, call + 1);
      OneShotStartsOnce(engine(call, lines[0]));
    }
  }

  /** The number of responses of the batch loop: every line up to the first failing one. */
  lemma BatchAnswerCount(lines: seq<string>, engine: Engine, call: nat)
    ensures multiset(Batch(lines, engine, call))[SpinnerStart] == BatchRead(lines, engine, call)
  {
    BatchReference(lines, engine, call);
    BlocksAnswerEach(lines[..BatchRead(lines, engine, call)], engine, false, call);
  }

  /** The end of the interactive loop answers once, unless it is the end of
      input or an empty line. */
  lemma InteractiveEndAnswers(lines: seq<string>, k: nat, engine: Engine, call: nat)
    requires k <= |lines|
    ensures multiset(InteractiveEnd(lines, k, engine, call))[SpinnerStart]
         == if k < |lines| && lines[k] != "" then 1 else 0
  {
    if k < |lines| && lines[k] != "" {
      OneShotStartsOnce(engine(call + k, lines[k]));
    }
  }

  /** The number of responses of the interactive loop: an empty line is never answered. */
  lemma InteractiveAnswerCount(lines: seq<string>, engine: Engine, call: nat)
    ensures var k := FirstStop(lines, engine, true, call);
      multiset(Interactive(lines, engine, call))[SpinnerStart]
      == k + (if k < |lines| && lines[k] != "" then 1 else 0)
  {
    InteractiveReference(lines, engine, call);
    var k := FirstStop(lines, engine, true, call);
    var blocks := Blocks(lines[..k], engine, true, call);
    var end := InteractiveEnd(lines, k, engine, call);
    BlocksAnswerEach(lines[..k], engine, true, call);
    InteractiveEndAnswers(lines, k, engine, call);
    assert multiset(blocks + end) == multiset(blocks) + multiset(end);
  }

  /** A non-empty prompt is echoed and answered once, whatever standard input
      holds and whether or not it is a terminal. */
  lemma PromptIgnoresInput(prompt: string, isTTY: bool, lines: seq<string>, engine: Engine)
    requires prompt != ""
    ensures Generate(Some(prompt), isTTY, lines, engine)
         == [Echo(">>> " + prompt + "\n")] + OneShot(engine(0, prompt))
    ensures forall tty', lines' :: Generate(Some(prompt), tty', lines', engine)
                                   == Generate(Some(prompt), isTTY, lines, engine)
    ensures multiset(Generate(Some(prompt), isTTY, lines, engine))[SpinnerStart] == 1
  {
    OneShotStartsOnce(engine(0, prompt));
  }

  /** Without a truthy prompt the terminal test picks the loop; the empty prompt
      behaves exactly like an absent one. */
  lemma NoPromptReadsInput(prompt: Option<string>, isTTY: bool, lines: seq<string>, engine: Engine)
    requires prompt == None || prompt == Some("")
    ensures Generate(prompt, isTTY, lines, engine)
         == if isTTY then Interactive(lines, engine, 0) else Batch(lines, engine, 0)
  {
  }

  /** Piped input holding "a" and "b", both answered normally: two responses,
      in that order, each after its echo. */
  lemma PipedTwoLines(engine: Engine)
    requires engine(0, "a").ending == Exhausted && engine(1, "b").ending == Exhausted
    ensures Generate(None, false, ["a", "b"], engine)
         == [Echo(">>>  a")] + OneShot(engine(0, "a")) + [Echo(">>>  b")] + OneShot(engine(1, "b"))
  {
    var lines := ["a", "b"];
    assert lines[1..] == ["b"];
    assert lines[1..][1..] == [];
    assert BatchEcho("a") == ">>>  a";
    assert BatchEcho("b") == ">>>  b";
    assert Batch(["b"], engine, 1) == [Echo(">>>  b")] + OneShot(engine(1, "b")) + Batch([], engine, 2);
    assert Batch(lines, engine, 0) == [Echo(">>>  a")] + OneShot(engine(0, "a")) + Batch(["b"], engine, 1);
  }

  /** The same line piped twice is sent to the engine twice: when the second
      call fails the batch ends with that failure, after two responses. */
  lemma RepeatedLineAskedAgain(engine: Engine)
    requires engine(0, "x").ending == Exhausted && engine(1, "x").ending == Fails
    ensures Raised(Generate(None, false, ["x", "x"], engine))
    ensures multiset(Generate(None, false, ["x", "x"], engine))[SpinnerStart] == 2
  {
    var lines := ["x", "x"];
    var first := Block("x", engine, false, 0);
    var second := Block("x", engine, false, 1);
    assert lines[1..] == ["x"];
    LastAnswer("x", engine, 1);
    BatchStep(lines, engine, 0);
    assert Generate(None, false, lines, engine) == first + second;
    OneShotStartsOnce(engine(0, "x"));
    OneShotStartsOnce(engine(1, "x"));
    assert multiset(first + second) == multiset(first) + multiset(second);
  }

  /** A single line whose answer raises: its block, ending in the raise. */
  lemma LastAnswer(line: string, engine: Engine, call: nat)
    requires engine(call, line).ending == Fails
    ensures Batch([line], engine, call) == Block(line, engine, false, call)
    ensures Raised(Block(line, engine, false, call))
  {
  }

  /** A terminal whose input is closed at once: the marker, then the end-of-input
      exception, and no response. */
  lemma ClosedTerminal(engine: Engine)
    ensures Generate(None, true, [], engine) == [Echo(Marker), Raise(EndOfInput)]
    ensures SpinnerStart !in Generate(None, true, [], engine)
  {
  }
}
