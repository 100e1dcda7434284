/**
 * The bytes a host writes for an event (`writeEvent`) against what a reader makes of them, whole or
 * cut off at any character.
 */
module EventStreamWire {
  import opened Options
  import opened Text
  import opened EventStream

  /** `id:` text, event type and payload text, exactly as they go between the field names. */
  datatype WireEvent = WireEvent(id: string, event: string, data: string)

  /** What JSON text, event type names and decimal numerals all satisfy. */
  predicate Clean(s: string) { '\n' !in s && (s == "" || s[|s| - 1] != '\r') }

  predicate CleanEvent(e: WireEvent) { Clean(e.id) && Clean(e.event) && Clean(e.data) }

  function IdLine(e: WireEvent): string { "id: " + e.id }

  function EventLine(e: WireEvent): string { "event: " + e.event }

  function DataLine(e: WireEvent): string { "data: " + e.data }

  /** `writeEvent`: three writes, the last one with the blank line. */
  function Print(e: WireEvent): string {
    ThreeLines(IdLine(e), EventLine(e), DataLine(e), "\n")
  }

  function PrintAll(es: seq<WireEvent>): string {
    if es == [] then "" else Print(es[0]) + PrintAll(es[1..])
  }

  function FrameOf(e: WireEvent): Frame { Frame(e.event, e.data, Some(e.id)) }

  function FramesOf(es: seq<WireEvent>): seq<Frame> {
    seq(|es|, i requires 0 <= i < |es| => FrameOf(es[i]))
  }

  // ---- the lines of one printed event ---------------------------------------------------------------

  lemma FieldLines(e: WireEvent)
    ensures Field(IdLine(e)) == "id" && Value(IdLine(e)) == e.id
    ensures Field(EventLine(e)) == "event" && Value(EventLine(e)) == e.event
    ensures Field(DataLine(e)) == "data" && Value(DataLine(e)) == e.data
  {
    assert IdLine(e)[..2] == "id" && IdLine(e)[3..] == " " + e.id;
    assert EventLine(e)[..5] == "event" && EventLine(e)[6..] == " " + e.event;
    assert DataLine(e)[..4] == "data" && DataLine(e)[5..] == " " + e.data;
    IndexOfUnique(IdLine(e), ':', 2);
    IndexOfUnique(EventLine(e), ':', 5);
    IndexOfUnique(DataLine(e), ':', 4);
  }

  /** Three lines and then `rest`. */
  function ThreeLines(a: string, b: string, c: string, rest: string): string {
    Terminated(a, Terminated(b, Terminated(c, rest)))
  }

  function Terminated(line: string, rest: string): string { line + "\n" + rest }

  lemma {:induction false} LinesOfOne(line: string, rest: string)
    requires '\n' !in line
    ensures Lines(Terminated(line, rest)) == [line] + Lines(rest)
    ensures Tail(Terminated(line, rest)) == Tail(rest)
  {
    FirstLine(line, rest);
  }

  lemma {:induction false} LinesOfThree(a: string, b: string, c: string, rest: string)
    requires '\n' !in a && '\n' !in b && '\n' !in c
    ensures Lines(ThreeLines(a, b, c, rest)) == [a, b, c] + Lines(rest)
    ensures Tail(ThreeLines(a, b, c, rest)) == Tail(rest)
  {
    hide Lines, Tail, Terminated;
    var r1 := Terminated(c, rest);
    var r2 := Terminated(b, r1);
    LinesOfOne(c, rest);
    LinesOfOne(b, r1);
    LinesOfOne(a, r2);
    assert [a] + ([b] + ([c] + Lines(rest))) == [a, b, c] + Lines(rest);
  }

  lemma {:induction false} LinesOfTwo(a: string, b: string, c: string)
    requires '\n' !in a && '\n' !in b && '\n' !in c
    ensures Lines(a + "\n" + (b + "\n" + c)) == [a, b]
  {
    NoNewline(c);
    FirstLine(b, c);
    FirstLine(a, b + "\n" + c);
  }

  lemma PrintedLines(e: WireEvent)
    requires CleanEvent(e)
    ensures Lines(Print(e)) == [IdLine(e), EventLine(e), DataLine(e), ""] && Tail(Print(e)) == ""
  {
    LinesOfThree(IdLine(e), EventLine(e), DataLine(e), "\n");
    FirstLine("", "");
    NoNewline("");
    assert "" + "\n" + "" == "\n";
  }

  lemma CleanLinesSurviveStripping(e: WireEvent)
    requires CleanEvent(e)
    ensures forall l :: l in [IdLine(e), EventLine(e), DataLine(e), ""]
              ==> StripOneCr(l) == l && StripAllCrs(l) == l
  {
    StripsAgree(IdLine(e));
    StripsAgree(EventLine(e));
    StripsAgree(DataLine(e));
  }

  /** Four lines, one frame, and the machine is fresh again. */
  lemma RunPrintedLines(frames: seq<Frame>, e: WireEvent)
    ensures RunLines(Machine(FRESH, frames), [IdLine(e), EventLine(e), DataLine(e), ""])
         == Machine(FRESH, frames + [FrameOf(e)])
  {
    FieldLines(e);
    var m1 := StepLine(Machine(FRESH, frames), IdLine(e));
    var m2 := StepLine(m1, EventLine(e));
    var m3 := StepLine(m2, DataLine(e));
    var m4 := StepLine(m3, "");
    assert m3.pending == Pending(e.event, [e.data], Some(e.id));
    RunLinesSnoc(Machine(FRESH, frames), [], IdLine(e));
    RunLinesSnoc(Machine(FRESH, frames), [IdLine(e)], EventLine(e));
    RunLinesSnoc(Machine(FRESH, frames), [IdLine(e), EventLine(e)], DataLine(e));
    RunLinesSnoc(Machine(FRESH, frames), [IdLine(e), EventLine(e), DataLine(e)], "");
    assert [] + [IdLine(e)] == [IdLine(e)];
    assert [IdLine(e)] + [EventLine(e)] == [IdLine(e), EventLine(e)];
    assert [IdLine(e), EventLine(e)] + [DataLine(e)] == [IdLine(e), EventLine(e), DataLine(e)];
    assert [IdLine(e), EventLine(e), DataLine(e)] + [""] == [IdLine(e), EventLine(e), DataLine(e), ""];
  }

  /** Reading a whole printed event, then whatever follows. */
  lemma ReadPrinted(frames: seq<Frame>, text: string, e: WireEvent, rest: string)
    requires CleanEvent(e) && text == Print(e) + rest
    ensures After(Machine(FRESH, frames), text) == After(Machine(FRESH, frames + [FrameOf(e)]), rest)
    ensures AfterAll(Machine(FRESH, frames), text) == AfterAll(Machine(FRESH, frames + [FrameOf(e)]), rest)
  {
    var four := [IdLine(e), EventLine(e), DataLine(e), ""];
    PrintedLines(e);
    CleanLinesSurviveStripping(e);
    hide Lines, Tail, StripOneCr, StripAllCrs, Print, CleanEvent, IdLine, EventLine, DataLine, After, AfterAll, FrameOf;
    assert Map(StripOneCr, four) == four && Map(StripAllCrs, four) == four;
    RunPrintedLines(frames, e);
    ReadAhead(Machine(FRESH, frames), text, Print(e), rest, four);
    ReadAheadAll(Machine(FRESH, frames), text, Print(e), rest, four);
  }

  // ---- truncation -----------------------------------------------------------------------------------

  /** How many events have their whole data line, newline included, within the first `k` characters. */
  function Complete(es: seq<WireEvent>, k: int): (n: nat)
    ensures n <= |es|
  {
    if es == [] || k < |Print(es[0])| - 1 then 0 else 1 + Complete(es[1..], k - |Print(es[0])|)
  }

  /** Everything of a printed event up to, and without, the newline that ends its data line. */
  function Stub(e: WireEvent): string { IdLine(e) + "\n" + (EventLine(e) + "\n" + DataLine(e)) }

  lemma PrintIsStub(e: WireEvent)
    ensures Print(e) == Stub(e) + "\n\n"
  {
  }

  /** Cut before the end of its data line, an event contributes at most its first two lines. */
  lemma CutLines(e: WireEvent, text: string)
    requires CleanEvent(e) && text <= Stub(e)
    ensures Lines(text) <= [IdLine(e), EventLine(e)]
  {
    LinesOfTwo(IdLine(e), EventLine(e), DataLine(e));
    var rest := Stub(e)[|text|..];
    assert Stub(e) == text + rest;
    LinesConcat(text, rest);
  }

  /** Such a stub dispatches nothing, not even through the final flush. */
  lemma ReadStub(frames: seq<Frame>, e: WireEvent, text: string)
    requires CleanEvent(e) && text <= Stub(e)
    ensures After(Machine(FRESH, frames), text) == frames
  {
    CutLines(e, text);
    CleanLinesSurviveStripping(e);
    FieldLines(e);
    hide Lines, StripOneCr, StripAllCrs, Stub, CleanEvent, Field, Value;
    var ls := Lines(text);
    assert ls == [] || ls == [IdLine(e)] || ls == [IdLine(e), EventLine(e)];
    assert Map(StripOneCr, ls) == ls;
    HeadDispatchesNothing(Machine(FRESH, frames), e, ls);
    hide RunLines;
    assert frames + [] == frames;
  }

  lemma HeadDispatchesNothing(m: Machine, e: WireEvent, ls: seq<string>)
    requires m.pending == FRESH && (ls == [] || ls == [IdLine(e)] || ls == [IdLine(e), EventLine(e)])
    ensures RunLines(m, ls).frames == m.frames && RunLines(m, ls).pending.data == []
  {
    FieldLines(e);
    RunLinesSnoc(m, [], IdLine(e));
    RunLinesSnoc(m, [IdLine(e)], EventLine(e));
    assert [] + [IdLine(e)] == [IdLine(e)];
    assert [IdLine(e)] + [EventLine(e)] == [IdLine(e), EventLine(e)];
    hide Field, Value;
  }

  /** Only the very last newline is missing: the frame still comes out, through the final flush. */
  lemma ReadUnterminated(frames: seq<Frame>, e: WireEvent, text: string)
    requires CleanEvent(e) && text == Stub(e) + "\n"
    ensures After(Machine(FRESH, frames), text) == frames + [FrameOf(e)]
  {
    var three := [IdLine(e), EventLine(e), DataLine(e)];
    UnterminatedLines(e, text);
    CleanLinesSurviveStripping(e);
    assert Map(StripOneCr, three) == three;
    RunPrintedLines(frames, e);
    var m := RunLines(Machine(FRESH, frames), three);
    RunLinesSnoc(Machine(FRESH, frames), three, "");
    assert three + [""] == [IdLine(e), EventLine(e), DataLine(e), ""];
    assert StepLine(m, "").frames == frames + [FrameOf(e)];
  }

  lemma UnterminatedLines(e: WireEvent, text: string)
    requires CleanEvent(e) && text == Stub(e) + "\n"
    ensures Lines(text) == [IdLine(e), EventLine(e), DataLine(e)]
  {
    NoNewline("");
    LinesOfThree(IdLine(e), EventLine(e), DataLine(e), "");
    StubIsThree(IdLine(e), EventLine(e), DataLine(e));
  }

  lemma StubIsThree(a: string, b: string, c: string)
    ensures a + "\n" + (b + "\n" + c) + "\n" == ThreeLines(a, b, c, "")
  {
  }

  lemma {:induction false} TruncatedFrom(frames: seq<Frame>, es: seq<WireEvent>, k: nat)
    requires forall e :: e in es ==> CleanEvent(e)
    requires k <= |PrintAll(es)|
    ensures After(Machine(FRESH, frames), PrintAll(es)[..k]) == frames + FramesOf(es[..Complete(es, k)])
    decreases |es|
  {
    hide After, AfterAll, Print, FrameOf, CleanEvent, Stub;
    if es == [] {
      ReadNothing(frames);
    } else {
      var e, rest := es[0], es[1..];
      assert e in es;
      PrintIsStub(e);
      var n := |Print(e)|;
      var text := PrintAll(es)[..k];
      if k < n - 1 {
        assert text == Stub(e)[..k];
        ReadStub(frames, e, text);
        assert frames + FramesOf([]) == frames;
      } else if k == n - 1 {
        assert text == Stub(e) + "\n";
        ReadUnterminated(frames, e, text);
        if rest != [] {
          PrintIsStub(rest[0]);
        }
        assert Complete(rest, -1) == 0;
        assert FramesOf(es[..1]) == [FrameOf(e)];
      } else {
        ReadPrinted(frames, text, e, PrintAll(rest)[..k - n]);
        TruncatedFrom(frames + [FrameOf(e)], rest, k - n);
        FramesOfCons(frames, es, Complete(rest, k - n));
      }
    }
  }

  lemma ReadNothing(frames: seq<Frame>)
    ensures After(Machine(FRESH, frames), "") == frames + FramesOf([])
    ensures AfterAll(Machine(FRESH, frames), "") == frames + FramesOf([])
  {
    NoNewline("");
  }

  lemma FramesOfCons(frames: seq<Frame>, es: seq<WireEvent>, c: nat)
    requires es != [] && c < |es|
    ensures (frames + [FrameOf(es[0])]) + FramesOf(es[1..][..c]) == frames + FramesOf(es[..1 + c])
  {
  }

  /** A stream cut at any character parses to the events whose data line arrived in full. */
  lemma TruncatedRoundTrip(es: seq<WireEvent>, k: nat)
    requires forall e :: e in es ==> CleanEvent(e)
    requires k <= |PrintAll(es)|
    ensures ParseTerminated(PrintAll(es)[..k]) == FramesOf(es[..Complete(es, k)])
  {
    TruncatedFrom([], es, k);
  }

  lemma {:induction false} CompleteAtEnd(es: seq<WireEvent>)
    ensures Complete(es, |PrintAll(es)|) == |es|
  {
    if es != [] {
      CompleteAtEnd(es[1..]);
    }
  }

  /** Print, then parse: the same events, in the same order, with their identifiers. */
  lemma {:induction false} RoundTrip(es: seq<WireEvent>)
    requires forall e :: e in es ==> CleanEvent(e)
    ensures ParseTerminated(PrintAll(es)) == FramesOf(es)
    ensures ParseAllLines(PrintAll(es)) == FramesOf(es)
  {
    var n := |PrintAll(es)|;
    TruncatedRoundTrip(es, n);
    CompleteAtEnd(es);
    assert PrintAll(es)[..n] == PrintAll(es) && es[..|es|] == es;
    ReadAllLines([], es);
  }

  lemma {:induction false} ReadAllLines(frames: seq<Frame>, es: seq<WireEvent>)
    requires forall e :: e in es ==> CleanEvent(e)
    ensures AfterAll(Machine(FRESH, frames), PrintAll(es)) == frames + FramesOf(es)
    decreases |es|
  {
    hide After, AfterAll, Print, FrameOf, CleanEvent, Stub;
    if es == [] {
      ReadNothing(frames);
    } else {
      assert es[0] in es;
      ReadPrinted(frames, PrintAll(es), es[0], PrintAll(es[1..]));
      ReadAllLines(frames + [FrameOf(es[0])], es[1..]);
      FramesOfCons(frames, es, |es| - 1);
      assert es[..|es|] == es && es[1..][..|es| - 1] == es[1..];
    }
  }

  /** Longer prefixes never lose events that shorter ones had. */
  lemma {:induction false} CompleteMonotone(es: seq<WireEvent>, k: int, k': int)
    requires k <= k'
    ensures Complete(es, k) <= Complete(es, k')
  {
    if es != [] && k >= |Print(es[0])| - 1 {
      CompleteMonotone(es[1..], k - |Print(es[0])|, k' - |Print(es[0])|);
    }
  }
}
