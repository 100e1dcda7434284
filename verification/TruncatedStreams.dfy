/**
 * Cut streams read by the Go and Python SDKs, which also look at an unterminated last line: half a
 * data line does dispatch a frame, but no document comes of it.
 */
module TruncatedStreams {
  import opened Options
  import opened Text
  import opened EventStream
  import opened EventStreamWire
  import opened Batches
  import opened ParserAgreement

  /** No raw carriage returns anywhere, as in JSON text, event types and numerals. */
  predicate CrFree(e: WireEvent) { '\r' !in e.id && '\r' !in e.event && '\r' !in e.data }

  /** No proper prefix of the payload decodes, as with the text of a JSON object. */
  ghost predicate PrefixFree(decode: Decoder, e: WireEvent) {
    forall j :: 0 <= j < |e.data| ==> decode(e.data[..j]) == None
  }

  ghost predicate Printable(decode: Decoder, e: WireEvent) {
    CleanEvent(e) && CrFree(e) && PrefixFree(decode, e) && e.data != ""
  }

  lemma NoCrToStrip(line: string)
    requires '\r' !in line
    ensures StripAllCrs(line) == line
  {
    if line != "" {
      assert line[|line| - 1] in line;
    }
  }

  lemma AllLinesOfTail(rest: string)
    requires '\n' !in rest
    ensures AllLines(rest) == if rest == "" then [] else [rest]
  {
    NoNewline(rest);
    NoNewline("");
  }

  /** An unterminated last line that is no data line. */
  lemma NoFrame(m: Machine, text: string)
    requires m.pending.data == [] && '\n' !in text && '\r' !in text
    requires text != "" ==> Field(text) != "data"
    ensures AfterAll(m, text) == m.frames
  {
    if text != "" {
      RunOneLine(m, text);
    } else {
      ReadNothingMore(m);
    }
    hide Field, AfterAll;
    assert m.frames + [] == m.frames;
  }

  lemma FirstCharOfField(line: string, c: char)
    requires line != "" && line[0] == c && c != ':'
    ensures Field(line) != "" && Field(line)[0] == c
  {
  }

  /** A cut within the first line. */
  lemma CutInId(frames: seq<Frame>, e: WireEvent, n: nat)
    requires CleanEvent(e) && CrFree(e) && n <= |IdLine(e)|
    ensures AfterAll(Machine(FRESH, frames), IdLine(e)[..n]) == frames
  {
    var text := IdLine(e)[..n];
    LinesAreWhole(e);
    if n > 0 {
      FirstCharOfField(text, 'i');
    }
    hide Field, IdLine, CleanEvent, CrFree, AfterAll;
    NoFrame(Machine(FRESH, frames), text);
  }

  /** None of the three lines holds a line break of its own. */
  lemma LinesAreWhole(e: WireEvent)
    requires CleanEvent(e) && CrFree(e)
    ensures '\n' !in IdLine(e) && '\r' !in IdLine(e) && IdLine(e) != ""
    ensures '\n' !in EventLine(e) && '\r' !in EventLine(e) && EventLine(e) != ""
    ensures '\n' !in DataLine(e) && '\r' !in DataLine(e) && DataLine(e) != ""
  {
  }

  /** The state after the complete first line. */
  function AfterId(frames: seq<Frame>, e: WireEvent): Machine {
    Machine(Pending("message", [], Some(e.id)), frames)
  }

  lemma ReadId(frames: seq<Frame>, e: WireEvent, rest: string)
    requires CleanEvent(e) && CrFree(e)
    ensures AfterAll(Machine(FRESH, frames), Terminated(IdLine(e), rest)) == AfterAll(AfterId(frames, e), rest)
  {
    LinesAreWhole(e);
    FieldLines(e);
    hide Field, Value, AfterAll, Terminated, IdLine, CleanEvent, CrFree;
    OneLineAhead(Machine(FRESH, frames), IdLine(e), rest);
    assert StepLine(Machine(FRESH, frames), IdLine(e)) == AfterId(frames, e);
  }

  lemma OneLineAhead(m: Machine, line: string, rest: string)
    requires '\n' !in line && '\r' !in line
    ensures AfterAll(m, Terminated(line, rest)) == AfterAll(StepLine(m, line), rest)
  {
    hide Lines, Tail, StripAllCrs, StepLine;
    LinesOfOne(line, "");
    NoNewline("");
    assert Terminated(line, rest) == Terminated(line, "") + rest;
    ReadAheadAll(m, Terminated(line, rest), Terminated(line, ""), rest, [line]);
    NoCrToStrip(line);
    assert Map(StripAllCrs, [line]) == [line];
    RunLinesSnoc(m, [], line);
    assert [] + [line] == [line];
  }

  /** A cut within the second line. */
  lemma CutInEvent(frames: seq<Frame>, e: WireEvent, n: nat)
    requires CleanEvent(e) && CrFree(e) && n <= |EventLine(e)|
    ensures AfterAll(AfterId(frames, e), EventLine(e)[..n]) == frames
  {
    var text := EventLine(e)[..n];
    LinesAreWhole(e);
    if n > 0 {
      FirstCharOfField(text, 'e');
    }
    hide Field, EventLine, CleanEvent, CrFree, AfterAll;
    NoFrame(AfterId(frames, e), text);
  }

  function AfterEvent(frames: seq<Frame>, e: WireEvent): Machine {
    Machine(Pending(e.event, [], Some(e.id)), frames)
  }

  lemma ReadEvent(frames: seq<Frame>, e: WireEvent, rest: string)
    requires CleanEvent(e) && CrFree(e)
    ensures AfterAll(AfterId(frames, e), Terminated(EventLine(e), rest)) == AfterAll(AfterEvent(frames, e), rest)
  {
    LinesAreWhole(e);
    FieldLines(e);
    hide Field, Value, AfterAll, Terminated, EventLine, CleanEvent, CrFree;
    OneLineAhead(AfterId(frames, e), EventLine(e), rest);
    assert StepLine(AfterId(frames, e), EventLine(e)) == AfterEvent(frames, e);
  }

  /** The field and value of a cut data line. */
  lemma CutDataLine(e: WireEvent, n: nat)
    requires 0 < n <= |DataLine(e)|
    ensures var text := DataLine(e)[..n];
            if n < 4 then Field(text) != "data"
            else Field(text) == "data" && Value(text) == e.data[..if n < 6 then 0 else n - 6]
  {
    var text := DataLine(e)[..n];
    if n <= 4 {
      assert ':' !in text;
      assert n == 4 ==> text == "data";
    } else {
      IndexOfUnique(text, ':', 4);
      assert text[..4] == "data";
      DataSlice(e.data, n);
      hide IndexOf;
    }
  }

  lemma DataSlice(data: string, n: nat)
    requires 5 <= n <= |data| + 6
    ensures ("data: " + data)[..n][5..] == if n == 5 then "" else " " + data[..n - 6]
  {
    var text := ("data: " + data)[..n];
    if n > 5 {
      var tail := " " + data[..n - 6];
      assert |text[5..]| == |tail|;
      assert forall i :: 0 <= i < n - 5 ==> text[5..][i] == tail[i];
    }
  }

  /** What a cut within the data line dispatches: nothing, or a frame with the data so far. */
  lemma CutInData(frames: seq<Frame>, e: WireEvent, n: nat)
    requires CleanEvent(e) && CrFree(e) && n <= |DataLine(e)|
    ensures AfterAll(AfterEvent(frames, e), DataLine(e)[..n])
         == frames + if n < 4 then []
                     else [Frame(e.event, e.data[..if n < 6 then 0 else n - 6], Some(e.id))]
  {
    var text := DataLine(e)[..n];
    LinesAreWhole(e);
    if n > 0 {
      CutDataLine(e, n);
    }
    hide Field, Value, DataLine, CleanEvent, CrFree, AfterAll;
    if n < 4 {
      NoFrame(AfterEvent(frames, e), text);
      assert frames + [] == frames;
    } else {
      OneFrame(AfterEvent(frames, e), text);
    }
  }

  /** An unterminated last line that is a data line, with no data before it. */
  lemma OneFrame(m: Machine, text: string)
    requires m.pending.data == [] && '\n' !in text && '\r' !in text && text != "" && Field(text) == "data"
    ensures AfterAll(m, text) == m.frames + [Frame(m.pending.event, Value(text), m.pending.id)]
  {
    RunOneLine(m, text);
    FlushOneLine(m, text);
    hide Field, Value, AfterAll, Finish;
  }

  /** The whole rest of the stream is one unterminated line. */
  lemma RunOneLine(m: Machine, text: string)
    requires '\n' !in text && '\r' !in text && text != ""
    ensures AfterAll(m, text) == Finish(StepLine(m, text))
  {
    AllLinesOfTail(text);
    NoCrToStrip(text);
    hide Lines, Tail, StripAllCrs, AllLines, StepLine, Finish;
    assert Map(StripAllCrs, [text]) == [text];
    RunLinesSnoc(m, [], text);
    assert [] + [text] == [text];
    assert RunLines(m, []) == m;
  }

  lemma FlushOneLine(m: Machine, text: string)
    requires m.pending.data == [] && text != "" && Field(text) == "data"
    ensures Finish(StepLine(m, text)) == m.frames + [Frame(m.pending.event, Value(text), m.pending.id)]
  {
    hide Field, Value;
    assert [] + [Value(text)] == [Value(text)];
  }

  /** Where in the three lines a cut falls. */
  lemma SliceLines(a: string, b: string, c: string, k: nat)
    requires k <= |a + "\n" + (b + "\n" + c)|
    ensures var text := (a + "\n" + (b + "\n" + c))[..k];
            if k <= |a| then text == a[..k]
            else if k <= |a| + 1 + |b| then text == Terminated(a, b[..k - |a| - 1])
            else text == Terminated(a, Terminated(b, c[..k - |a| - |b| - 2]))
  {
  }

  /** The characters before the data line. */
  function HeadLength(e: WireEvent): nat { |IdLine(e)| + |EventLine(e)| + 2 }

  /** The frames dispatched when a stream stops inside a printed event. */
  lemma CutFrames(frames: seq<Frame>, e: WireEvent, k: nat)
    requires CleanEvent(e) && CrFree(e) && k <= |Stub(e)|
    ensures AfterAll(Machine(FRESH, frames), Stub(e)[..k])
         == frames + if k < HeadLength(e) + 4 then []
                     else [Frame(e.event, e.data[..if k < HeadLength(e) + 6 then 0 else k - HeadLength(e) - 6],
                                 Some(e.id))]
  {
    var a, b, c := IdLine(e), EventLine(e), DataLine(e);
    hide AfterAll, CleanEvent, CrFree, IdLine, EventLine, AfterId, AfterEvent, Terminated;
    SliceLines(a, b, c, k);
    assert frames + [] == frames;
    if k <= |a| {
      CutInId(frames, e, k);
    } else if k <= |a| + 1 + |b| {
      ReadId(frames, e, b[..k - |a| - 1]);
      CutInEvent(frames, e, k - |a| - 1);
    } else {
      var n := k - |a| - |b| - 2;
      ReadId(frames, e, Terminated(b, c[..n]));
      ReadEvent(frames, e, c[..n]);
      CutInData(frames, e, n);
    }
  }

  /** Documents of a stream that stops inside a printed event: all of it counts, or nothing. */
  lemma CutDocs(sdk: Sdk, decode: Decoder, frames: seq<Frame>, e: WireEvent, k: nat)
    requires Printable(decode, e) && k <= |Stub(e)|
    ensures AllDocs(sdk, decode, AfterAll(Machine(FRESH, frames), Stub(e)[..k]))
         == AllDocs(sdk, decode, if k == |Stub(e)| then frames + [FrameOf(e)] else frames)
  {
    CutFrames(frames, e, k);
    hide AfterAll, AllDocs, CleanEvent, CrFree, PrefixFree;
    var h := HeadLength(e);
    assert |Stub(e)| == h + 6 + |e.data|;
    if k < h + 4 {
      assert frames + [] == frames;
    } else if k == |Stub(e)| {
      assert e.data[..|e.data|] == e.data;
    } else {
      HalfAFrame(sdk, decode, frames, e, if k < h + 6 then 0 else k - h - 6);
    }
  }

  /** A frame whose data is cut short yields no document. */
  lemma HalfAFrame(sdk: Sdk, decode: Decoder, frames: seq<Frame>, e: WireEvent, j: nat)
    requires PrefixFree(decode, e) && j < |e.data|
    ensures AllDocs(sdk, decode, frames + [Frame(e.event, e.data[..j], Some(e.id))]) == AllDocs(sdk, decode, frames)
  {
    var f := Frame(e.event, e.data[..j], Some(e.id));
    AllDocsConcat(sdk, decode, frames, [f]);
    assert [f][1..] == [];
    assert decode(e.data[..j]) == None;
  }

  /** The frame is complete as soon as the data line is, with or without its newline. */
  lemma ReadDataLine(frames: seq<Frame>, e: WireEvent)
    requires CleanEvent(e) && CrFree(e)
    ensures AfterAll(Machine(FRESH, frames), Stub(e) + "\n") == frames + [FrameOf(e)]
  {
    var a, b, c := IdLine(e), EventLine(e), DataLine(e);
    hide AfterAll, IdLine, EventLine, DataLine, Field, Value, Terminated, AfterId, CleanEvent, CrFree;
    StubIsThree(a, b, c);
    ReadId(frames, e, Terminated(b, Terminated(c, "")));
    ReadEvent(frames, e, Terminated(c, ""));
    ReadData(frames, e);
  }

  lemma ReadData(frames: seq<Frame>, e: WireEvent)
    requires CleanEvent(e) && CrFree(e)
    ensures AfterAll(AfterEvent(frames, e), Terminated(DataLine(e), "")) == frames + [FrameOf(e)]
  {
    var m := AfterEvent(frames, e);
    LinesAreWhole(e);
    FieldLines(e);
    hide Field, Value, AfterAll, Terminated, DataLine, CleanEvent, CrFree;
    OneLineAhead(m, DataLine(e), "");
    assert [] + [e.data] == [e.data];
    ReadNothingMore(StepLine(m, DataLine(e)));
  }

  lemma ReadNothingMore(m: Machine)
    ensures AfterAll(m, "") == Finish(m)
  {
    NoNewline("");
  }

  /** How many events have their data line, newline or not, within the first `k` characters. */
  function DataComplete(es: seq<WireEvent>, k: int): (n: nat)
    ensures n <= |es|
  {
    if es == [] || k < |Stub(es[0])| then 0 else 1 + DataComplete(es[1..], k - |Print(es[0])|)
  }

  lemma {:induction false} TruncatedDocsFrom(
    sdk: Sdk, decode: Decoder, frames: seq<Frame>, es: seq<WireEvent>, k: nat)
    requires forall e :: e in es ==> Printable(decode, e)
    requires k <= |PrintAll(es)|
    ensures AllDocs(sdk, decode, AfterAll(Machine(FRESH, frames), PrintAll(es)[..k]))
         == AllDocs(sdk, decode, frames + FramesOf(es[..DataComplete(es, k)]))
    decreases |es|
  {
    hide AfterAll, AllDocs, Print, FrameOf, CleanEvent, CrFree, PrefixFree, Stub;
    if es == [] {
      ReadNothing(frames);
    } else {
      var e, rest := es[0], es[1..];
      assert e in es;
      PrintIsStub(e);
      var n := |Print(e)|;
      var text := PrintAll(es)[..k];
      if k <= n - 2 {
        assert text == Stub(e)[..k];
        CutDocs(sdk, decode, frames, e, k);
        StubsRemain(rest, k - n);
        assert frames + FramesOf([]) == frames && FramesOf(es[..1]) == [FrameOf(e)];
      } else if k == n - 1 {
        assert text == Stub(e) + "\n";
        ReadDataLine(frames, e);
        StubsRemain(rest, -1);
        assert FramesOf(es[..1]) == [FrameOf(e)];
      } else {
        EventStreamWire.ReadPrinted(frames, text, e, PrintAll(rest)[..k - n]);
        TruncatedDocsFrom(sdk, decode, frames + [FrameOf(e)], rest, k - n);
        FramesOfCons(frames, es, DataComplete(rest, k - n));
      }
    }
  }

  lemma StubsRemain(es: seq<WireEvent>, k: int)
    requires k < 0
    ensures DataComplete(es, k) == 0
  {
  }

  /**
   * Cut anywhere, a stream gives every SDK the documents of its first events, one after the other:
   * all those whose data line arrived, for TypeScript with its newline.
   */
  lemma TruncatedDocuments(sdk: Sdk, decode: Decoder, es: seq<WireEvent>, k: nat)
    requires forall e :: e in es ==> Printable(decode, e)
    requires k <= |PrintAll(es)|
    ensures var n := if sdk.TypeScript? then Complete(es, k) else DataComplete(es, k);
            Documents(sdk, decode, PrintAll(es)[..k]) == AllDocs(sdk, decode, FramesOf(es[..n]))
    ensures Complete(es, k) <= DataComplete(es, k) <= Complete(es, k) + 1
  {
    DataCompleteFirst(es, k);
    hide AllDocs, PrintAll, Complete, DataComplete;
    if sdk.TypeScript? {
      TruncatedRoundTrip(es, k);
    } else {
      TruncatedDocsFrom(sdk, decode, [], es, k);
      assert [] + FramesOf(es[..DataComplete(es, k)]) == FramesOf(es[..DataComplete(es, k)]);
    }
  }

  lemma {:induction false} DataCompleteFirst(es: seq<WireEvent>, k: int)
    ensures Complete(es, k) <= DataComplete(es, k) <= Complete(es, k) + 1
  {
    if es != [] {
      PrintIsStub(es[0]);
      if k >= |Stub(es[0])| {
        if k >= |Print(es[0])| - 1 {
          DataCompleteFirst(es[1..], k - |Print(es[0])|);
        } else {
          StubsRemain(es[1..], k - |Print(es[0])|);
        }
      }
    }
  }
}
