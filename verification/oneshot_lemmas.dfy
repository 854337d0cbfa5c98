/**
 Trace-level facts about `Console.OneShot`: what text a response prints, when
 the spinner stops, and what the normal and the failing ends look like.
 */
module OneShotLemmas {
  import opened Console

  /** Some chunk of the stream is visible. */
  predicate HasVisible(chunks: seq<Chunk>) {
    exists i :: 0 <= i < |chunks| && Visible(chunks[i])
  }

  /** The texts of the visible chunks, in stream order. */
  function VisibleTexts(chunks: seq<Chunk>): seq<string>
    decreases |chunks|
  {
    if |chunks| == 0 then []
    else (if Visible(chunks[0]) then [FirstText(chunks[0])] else []) + VisibleTexts(chunks[1..])
  }

  /** One `Text` event per string, in order. */
  function TextEvents(xs: seq<string>): seq<Event> {
    seq(|xs|, i requires 0 <= i < |xs| => Text(xs[i]))
  }

  /** Every string the response stream contributes, one per chunk, "" for an
      invisible chunk, joined. */
  function StreamText(chunks: seq<Chunk>): string
    decreases |chunks|
  {
    if |chunks| == 0 then ""
    else (if Visible(chunks[0]) then FirstText(chunks[0]) else "") + StreamText(chunks[1..])
  }

  /** The concatenation of the payloads of a trace's `Text` events. */
  function Printed(t: seq<Event>): string
    decreases |t|
  {
    if |t| == 0 then ""
    else (if t[0].Text? then t[0].s else "") + Printed(t[1..])
  }

  /** The index of the first visible chunk. */
  function FirstVisible(chunks: seq<Chunk>): (k: nat)
    requires HasVisible(chunks)
    ensures k < |chunks| && Visible(chunks[k])
    ensures forall j :: 0 <= j < k ==> !Visible(chunks[j])
    decreases |chunks|
  {
    if Visible(chunks[0]) then 0
    else
      var i :| 0 <= i < |chunks| && Visible(chunks[i]);
      assert Visible(chunks[1..][i - 1]);
      1 + FirstVisible(chunks[1..])
  }

  lemma TextEventsCons(x: string, xs: seq<string>)
    ensures TextEvents([x] + xs) == [Text(x)] + TextEvents(xs)
  {
  }

  lemma {:induction false} HasVisibleTail(chunks: seq<Chunk>)
    requires |chunks| > 0 && !Visible(chunks[0])
    ensures HasVisible(chunks) <==> HasVisible(chunks[1..])
  {
    if HasVisible(chunks) {
      var i :| 0 <= i < |chunks| && Visible(chunks[i]);
      assert Visible(chunks[1..][i - 1]);
    }
    if HasVisible(chunks[1..]) {
      var i :| 0 <= i < |chunks[1..]| && Visible(chunks[1..][i]);
      assert Visible(chunks[i + 1]);
    }
  }

  /** Once the spinner is stopped, the loop emits one `Text` per visible chunk, in order. */
  lemma {:induction false} RenderStopped(chunks: seq<Chunk>)
    ensures Render(chunks, false) == TextEvents(VisibleTexts(chunks))
    decreases |chunks|
  {
    if |chunks| > 0 {
      var rest := chunks[1..];
      RenderStopped(rest);
      if Visible(chunks[0]) {
        var t0 := FirstText(chunks[0]);
        assert Render(chunks, false) == [Text(t0)] + Render(rest, false);
        assert VisibleTexts(chunks) == [t0] + VisibleTexts(rest);
        TextEventsCons(t0, VisibleTexts(rest));
      } else {
        assert VisibleTexts(chunks) == VisibleTexts(rest);
      }
    }
  }

  /** With the spinner running, the loop emits the spinner stop and the
      carriage return once, before all text, exactly when some chunk is
      visible; then one `Text` per visible chunk, in order. */
  lemma {:induction false} RenderShape(chunks: seq<Chunk>)
    ensures Render(chunks, true)
         == (if HasVisible(chunks) then [SpinnerStop, CR] else []) + TextEvents(VisibleTexts(chunks))
    decreases |chunks|
  {
    if |chunks| > 0 {
      var rest := chunks[1..];
      if Visible(chunks[0]) {
        var t0 := FirstText(chunks[0]);
        RenderStopped(rest);
        assert Render(chunks, true) == [SpinnerStop, CR] + [Text(t0)] + Render(rest, false);
        assert VisibleTexts(chunks) == [t0] + VisibleTexts(rest);
        TextEventsCons(t0, VisibleTexts(rest));
        assert HasVisible(chunks) by { assert Visible(chunks[0]); }
      } else {
        RenderShape(rest);
        HasVisibleTail(chunks);
        assert Render(chunks, true) == Render(rest, true);
        assert VisibleTexts(chunks) == VisibleTexts(rest);
      }
    }
  }

  /** The whole trace of one response, stated without the loop's flag. */
  lemma OneShotShape(st: Stream)
    ensures OneShot(st)
         == [Newline, SpinnerStart]
            + (if HasVisible(st.chunks) then [SpinnerStop, CR] else [])
            + TextEvents(VisibleTexts(st.chunks))
            + Trailer(st.ending)
  {
    RenderShape(st.chunks);
  }

  lemma {:induction false} PrintedAppend(a: seq<Event>, b: seq<Event>)
    ensures Printed(a + b) == Printed(a) + Printed(b)
    decreases |a|
  {
    if |a| == 0 {
      assert a + b == b;
    } else {
      assert (a + b)[1..] == a[1..] + b;
      PrintedAppend(a[1..], b);
    }
  }

  lemma {:induction false} PrintedTexts(chunks: seq<Chunk>)
    ensures Printed(TextEvents(VisibleTexts(chunks))) == StreamText(chunks)
    decreases |chunks|
  {
    if |chunks| > 0 {
      PrintedTexts(chunks[1..]);
      var rest := TextEvents(VisibleTexts(chunks[1..]));
      if Visible(chunks[0]) {
        TextEventsCons(FirstText(chunks[0]), VisibleTexts(chunks[1..]));
        PrintedAppend([Text(FirstText(chunks[0]))], rest);
      } else {
        assert VisibleTexts(chunks) == VisibleTexts(chunks[1..]);
      }
    }
  }

  /** All text a response prints is the first choice's text of every chunk
      with non-empty choices, in order, a missing text counting as "";
      chunks with empty choices print nothing. */
  lemma PrintedIsStreamText(st: Stream)
    ensures Printed(OneShot(st)) == StreamText(st.chunks)
  {
    OneShotShape(st);
    var stop := if HasVisible(st.chunks) then [SpinnerStop, CR] else [];
    var body := TextEvents(VisibleTexts(st.chunks));
    PrintedAppend([Newline, SpinnerStart] + stop + body, Trailer(st.ending));
    PrintedAppend([Newline, SpinnerStart] + stop, body);
    PrintedAppend([Newline, SpinnerStart], stop);
    PrintedTexts(st.chunks);
    PrintedNoText([Newline, SpinnerStart]);
    PrintedNoText(stop);
    PrintedNoText(Trailer(st.ending));
  }

  lemma {:induction false} PrintedNoText(t: seq<Event>)
    requires forall i :: 0 <= i < |t| ==> !t[i].Text?
    ensures Printed(t) == ""
    decreases |t|
  {
    if |t| > 0 {
      PrintedNoText(t[1..]);
    }
  }

  lemma TextEventsOnlyText(xs: seq<string>)
    ensures forall e :: e in TextEvents(xs) ==> e.Text?
  {
  }

  /** A trace made of `Text` events holds no other event. */
  lemma TextEventsCount(xs: seq<string>, e: Event)
    requires !e.Text?
    ensures multiset(TextEvents(xs))[e] == 0
  {
    TextEventsOnlyText(xs);
    assert e !in TextEvents(xs);
  }

  /** `spinner.stop()` is called once per visible response, plus once more on failure. */
  lemma StopCount(st: Stream)
    ensures multiset(OneShot(st))[SpinnerStop]
         == (if HasVisible(st.chunks) then 1 else 0) + (if st.ending == Fails then 1 else 0)
  {
    OneShotShape(st);
    TextEventsCount(VisibleTexts(st.chunks), SpinnerStop);
  }

  /** On a normal end the spinner is stopped at most once. */
  lemma StopAtMostOnceNormally(st: Stream)
    requires st.ending == Exhausted
    ensures multiset(OneShot(st))[SpinnerStop] <= 1
  {
    StopCount(st);
  }

  /** The first visible chunk's text is the first text printed. */
  lemma {:induction false} FirstVisibleText(chunks: seq<Chunk>)
    requires HasVisible(chunks)
    ensures |VisibleTexts(chunks)| > 0
    ensures VisibleTexts(chunks)[0] == FirstText(chunks[FirstVisible(chunks)])
    decreases |chunks|
  {
    if !Visible(chunks[0]) {
      HasVisibleTail(chunks);
      FirstVisibleText(chunks[1..]);
      assert VisibleTexts(chunks) == VisibleTexts(chunks[1..]);
    }
  }

  /** With visible text, the spinner stop comes right after the spinner start,
      followed by the carriage return and then the first visible chunk's text;
      no text precedes it, and nothing but text follows until the trailer. */
  lemma StopPrecedesText(st: Stream)
    requires HasVisible(st.chunks)
    ensures var t := OneShot(st);
      && |t| >= 7
      && t[2] == SpinnerStop && t[3] == CR
      && t[4] == Text(FirstText(st.chunks[FirstVisible(st.chunks)]))
      && (forall i :: 0 <= i < 4 ==> !t[i].Text?)
      && (forall i :: 4 <= i < |t| - 2 ==> t[i].Text?)
  {
    OneShotShape(st);
    FirstVisibleText(st.chunks);
    TextEventsOnlyText(VisibleTexts(st.chunks));
  }

  /** Without visible text a normal end leaves the spinner running: the trace
      is a blank line, the spinner start and the two closing newlines. */
  lemma NoVisibleNormalEnd(st: Stream)
    requires !HasVisible(st.chunks) && st.ending == Exhausted
    ensures OneShot(st) == [Newline, SpinnerStart, Newline, Newline]
    ensures SpinnerStop !in OneShot(st)
  {
    OneShotShape(st);
    assert VisibleTexts(st.chunks) == [] by {
      if VisibleTexts(st.chunks) != [] {
        HasVisibleFromTexts(st.chunks);
      }
    }
  }

  lemma {:induction false} HasVisibleFromTexts(chunks: seq<Chunk>)
    requires VisibleTexts(chunks) != []
    ensures HasVisible(chunks)
    decreases |chunks|
  {
    if Visible(chunks[0]) {
    } else {
      HasVisibleFromTexts(chunks[1..]);
      HasVisibleTail(chunks);
    }
  }

  /** On failure the spinner is stopped and the error re-raised; the closing
      newlines are not written, and a response that had already printed text
      stops the spinner twice. */
  lemma FailurePath(st: Stream)
    requires st.ending == Fails
    ensures var t := OneShot(st);
      && t[|t| - 2..] == [SpinnerStop, Raise(GenerationFailed)]
      && multiset(t)[Newline] == 1
      && multiset(t)[SpinnerStop] == (if HasVisible(st.chunks) then 2 else 1)
  {
    OneShotShape(st);
    StopCount(st);
    TextEventsCount(VisibleTexts(st.chunks), Newline);
  }
}
