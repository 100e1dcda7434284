/**
 * When the four readers agree: on frames, on documents, and on documents however the server groups
 * them into batches.
 */
module ParserAgreement {
  import opened Options
  import opened Text
  import opened EventStream
  import opened EventStreamWire
  import opened Batches
  import opened RunTypes
  import EventLog
  import Delivery

  // ---- frames ---------------------------------------------------------------------------------------------

  predicate EndsInTwoCrs(line: string) { |line| >= 2 && line[|line| - 1] == '\r' && line[|line| - 2] == '\r' }

  /** No line of the stream ends in more than one carriage return. */
  predicate SingleCrs(t: string) { forall l :: l in AllLines(t) ==> !EndsInTwoCrs(l) }

  lemma SameStripping(t: string)
    requires SingleCrs(t)
    ensures Map(StripAllCrs, Lines(t)) == Map(StripOneCr, Lines(t))
  {
    hide Lines, StripOneCr, StripAllCrs;
    forall i | 0 <= i < |Lines(t)| ensures StripAllCrs(Lines(t)[i]) == StripOneCr(Lines(t)[i]) {
      assert Lines(t)[i] in AllLines(t);
      StripsAgree(Lines(t)[i]);
    }
  }

  /** On streams that end in a newline the four line machines dispatch the same frames. */
  lemma ReadersAgree(t: string)
    requires Tail(t) == "" && SingleCrs(t)
    ensures ParseAllLines(t) == ParseTerminated(t)
  {
    SameStripping(t);
    assert AllLines(t) == Lines(t);
  }

  /** What an unterminated last line may be without making a difference. */
  predicate HarmlessTail(p: Pending, line: string) {
    line == "" ||
    (Field(line) != "data" && (Field(line) == "event" ==> p.data == [] || Value(line) == p.event))
  }

  lemma {:induction false} JoinGrows(parts: seq<string>, last: string)
    requires parts != []
    ensures |Join(parts + [last], "\n")| > |Join(parts, "\n")|
  {
    if |parts| == 1 {
      assert parts + [last] == [parts[0], last];
      assert [parts[0], last][1..] == [last];
    } else {
      assert (parts + [last])[1..] == parts[1..] + [last];
      JoinGrows(parts[1..], last);
    }
  }

  lemma TailMatters(m: Machine, line: string)
    ensures SameIgnoringId(Finish(m), Finish(StepLine(m, line))) <==> HarmlessTail(m.pending, line)
  {
    hide Join, Field, Value;
    var p := m.pending;
    if line == "" {
      assert Flushed(FRESH) == [];
      assert m.frames + Flushed(p) + [] == m.frames + Flushed(p);
    } else {
      var a, b := m.frames + Flushed(p), m.frames + Flushed(TakeLine(p, line));
      if Field(line) == "data" && p.data != [] {
        JoinGrows(p.data, Value(line));
        assert a[|m.frames|].data != b[|m.frames|].data;
      } else if Field(line) == "event" && p.data != [] {
        assert a[|m.frames|].event == p.event && b[|m.frames|].event == Value(line);
      }
    }
  }

  /**
   * Go and Python also read an unterminated last line, which TypeScript never looks at. The
   * dispatched events differ exactly if that line adds data or renames an event that has data.
   */
  lemma UnterminatedTail(t: string)
    requires SingleCrs(t)
    ensures SameIgnoringId(ParseTerminated(t), ParseAllLines(t)) <==>
              Tail(t) == "" ||
              HarmlessTail(RunLines(INITIAL, Map(StripOneCr, Lines(t))).pending, StripAllCrs(Tail(t)))
  {
    SameStripping(t);
    hide HarmlessTail, RunLines, StepLine, Lines, StripAllCrs, StripOneCr, SameIgnoringId, SingleCrs;
    var lines := Map(StripOneCr, Lines(t));
    var m := RunLines(INITIAL, lines);
    if Tail(t) == "" {
      assert AllLines(t) == Lines(t);
      SameAsItself(Finish(m));
    } else {
      var line := StripAllCrs(Tail(t));
      assert Map(StripAllCrs, AllLines(t)) == lines + [line];
      RunLinesSnoc(INITIAL, lines, line);
      TailMatters(m, line);
    }
  }

  lemma SameAsItself(frames: seq<Frame>)
    ensures SameIgnoringId(frames, frames)
  {
  }

  /** Two carriage returns: the TypeScript readers keep one, the others keep none. */
  lemma TwoCrsDisagree()
    ensures var t := "data: a\r\r\n";
            && ParseTerminated(t) == [Frame("message", "a\r", None)]
            && ParseAllLines(t) == [Frame("message", "a", None)]
  {
    hide Lines, Tail, StripOneCr, StripAllCrs, RunLines;
    var line := "data: " + "a\r\r";
    FirstLine(line, "");
    NoNewline("");
    assert "data: a\r\r\n" == line + "\n" + "";
    assert AllLines("data: a\r\r\n") == [line] && Lines("data: a\r\r\n") == [line];
    StripTwo();
    assert Map(StripOneCr, [line]) == ["data: " + "a\r"];
    assert Map(StripAllCrs, [line]) == ["data: " + "a"];
    OneDataLine("a\r");
    OneDataLine("a");
  }

  lemma StripTwo()
    ensures StripOneCr("data: " + "a\r\r") == "data: " + "a\r"
    ensures StripAllCrs("data: " + "a\r\r") == "data: " + "a"
  {
    var line := "data: " + "a\r\r";
    assert line[..8] == "data: " + "a\r";
    var shorter := "data: " + "a\r";
    assert shorter[..7] == "data: " + "a";
    assert StripAllCrs("data: " + "a") == "data: " + "a";
    assert StripAllCrs(shorter) == "data: " + "a";
  }

  lemma OneDataLine(text: string)
    ensures Finish(RunLines(INITIAL, ["data: " + text])) == [Frame("message", text, None)]
  {
    var line := "data: " + text;
    assert line[..4] == "data" && line[5..] == " " + text;
    IndexOfUnique(line, ':', 4);
    RunLinesSnoc(INITIAL, [], line);
    assert [] + [line] == [line];
    assert [] + [text] == [text];
  }

  // ---- documents ------------------------------------------------------------------------------------------

  /** The frames an SDK's reader finds in a stream. */
  function Read(sdk: Sdk, t: string): seq<Frame> {
    if sdk.TypeScript? then ParseTerminated(t) else ParseAllLines(t)
  }

  /** What the SDK hands to its caller. */
  function Documents(sdk: Sdk, decode: Decoder, t: string): seq<Json> { AllDocs(sdk, decode, Read(sdk, t)) }

  /**
   * On a stream that all readers read alike, an SDK hands out what TypeScript does if and only if its
   * filter accepts every document TypeScript hands out.
   */
  lemma SdksAgree(decode: Decoder, t: string, sdk: Sdk)
    requires SameIgnoringId(ParseTerminated(t), ParseAllLines(t))
    ensures Documents(sdk, decode, t) == Documents(TypeScript, decode, t) <==>
              forall v :: v in Documents(TypeScript, decode, t) ==> Accepts(sdk, v)
  {
    DocsIgnoreIds(sdk, decode, ParseTerminated(t), ParseAllLines(t));
    SdkAgreesExactly(sdk, decode, ParseTerminated(t));
    hide AllDocs, ParseTerminated, ParseAllLines, SameIgnoringId, Accepts;
  }

  // ---- batches --------------------------------------------------------------------------------------------

  type JsonEncoder = Json -> string

  /** The JSON encoder: clean text that decodes to the same value. */
  ghost predicate Encodes(encode: JsonEncoder, decode: Decoder) {
    forall v :: Clean(encode(v)) && decode(encode(v)) == Some(v)
  }

  function Flatten(groups: seq<seq<Json>>): seq<Json> {
    if groups == [] then [] else groups[0] + Flatten(groups[1..])
  }

  /** One `event: batch` frame for each group. */
  function BatchWires(encode: JsonEncoder, groups: seq<seq<Json>>, ids: nat -> string): seq<WireEvent> {
    seq(|groups|, i requires 0 <= i < |groups| => WireEvent(ids(i), "batch", encode(Array(groups[i]))))
  }

  /** One frame for each document, under whatever event names. */
  function SingleWires(encode: JsonEncoder, docs: seq<Json>, ids: nat -> string, names: nat -> string): seq<WireEvent> {
    seq(|docs|, i requires 0 <= i < |docs| => WireEvent(ids(i), names(i), encode(docs[i])))
  }

  lemma {:induction false} BatchDocs(sdk: Sdk, decode: Decoder, frames: seq<Frame>, groups: seq<seq<Json>>)
    requires |frames| == |groups|
    requires forall i :: 0 <= i < |groups| ==>
               frames[i].event == "batch" && decode(frames[i].data) == Some(Array(groups[i]))
    ensures AllDocs(sdk, decode, frames) == Keep(Flatten(groups), sdk)
    decreases |frames|
  {
    if frames != [] {
      assert forall i :: 0 <= i < |groups[1..]| ==> groups[1..][i] == groups[i + 1] && frames[1..][i] == frames[i + 1];
      BatchDocs(sdk, decode, frames[1..], groups[1..]);
      KeepConcat(groups[0], Flatten(groups[1..]), sdk);
      hide Keep, Accepts;
    }
  }

  /** A frame of its own is one document, an array too unless its event is named `batch`. */
  predicate Alone(name: string, doc: Json) { name != "batch" || !doc.Array? }

  lemma {:induction false} SingleDocs(sdk: Sdk, decode: Decoder, frames: seq<Frame>, docs: seq<Json>)
    requires |frames| == |docs|
    requires forall i :: 0 <= i < |docs| ==> decode(frames[i].data) == Some(docs[i]) && Alone(frames[i].event, docs[i])
    ensures AllDocs(sdk, decode, frames) == Keep(docs, sdk)
    decreases |frames|
  {
    if frames != [] {
      assert forall i :: 0 <= i < |docs[1..]| ==> docs[1..][i] == docs[i + 1] && frames[1..][i] == frames[i + 1];
      SingleDocs(sdk, decode, frames[1..], docs[1..]);
      KeepConcat([docs[0]], docs[1..], sdk);
      assert docs == [docs[0]] + docs[1..];
      hide Keep, Accepts;
    }
  }

  lemma ReadPrinted(sdk: Sdk, es: seq<WireEvent>)
    requires forall e :: e in es ==> CleanEvent(e)
    ensures Read(sdk, PrintAll(es)) == FramesOf(es)
  {
    RoundTrip(es);
  }

  lemma BatchWire(encode: JsonEncoder, decode: Decoder, group: seq<Json>, id: string)
    requires Encodes(encode, decode) && Clean(id)
    ensures var e := WireEvent(id, "batch", encode(Array(group)));
            CleanEvent(e) && FrameOf(e).event == "batch" && decode(FrameOf(e).data) == Some(Array(group))
  {
    BatchIsClean();
    hide Clean;
    assert Clean(encode(Array(group)));
  }

  lemma BatchFrames(encode: JsonEncoder, decode: Decoder, groups: seq<seq<Json>>, ids: nat -> string)
    requires Encodes(encode, decode) && forall n :: Clean(ids(n))
    ensures var es := BatchWires(encode, groups, ids);
            && (forall e :: e in es ==> CleanEvent(e))
            && |FramesOf(es)| == |groups|
            && forall i :: 0 <= i < |groups| ==>
                 FramesOf(es)[i].event == "batch" && decode(FramesOf(es)[i].data) == Some(Array(groups[i]))
  {
    hide Encodes, Clean, CleanEvent, FrameOf;
    var es := BatchWires(encode, groups, ids);
    forall i | 0 <= i < |groups|
      ensures CleanEvent(es[i])
      ensures FrameOf(es[i]).event == "batch" && decode(FrameOf(es[i]).data) == Some(Array(groups[i]))
    {
      assert Clean(ids(i));
      BatchWire(encode, decode, groups[i], ids(i));
    }
  }

  lemma {:induction false} BatchStream(
    sdk: Sdk, encode: JsonEncoder, decode: Decoder, groups: seq<seq<Json>>, ids: nat -> string)
    requires Encodes(encode, decode)
    requires forall n :: Clean(ids(n))
    ensures Documents(sdk, decode, PrintAll(BatchWires(encode, groups, ids))) == Keep(Flatten(groups), sdk)
  {
    BatchFrames(encode, decode, groups, ids);
    hide PrintAll, Flatten, Clean, CleanEvent, AllDocs, BatchWires, FramesOf, Encodes, Read, Keep;
    ReadPrinted(sdk, BatchWires(encode, groups, ids));
    BatchDocs(sdk, decode, FramesOf(BatchWires(encode, groups, ids)), groups);
  }

  lemma {:induction false} SingleStream(
    sdk: Sdk, encode: JsonEncoder, decode: Decoder, docs: seq<Json>, ids: nat -> string, names: nat -> string)
    requires Encodes(encode, decode)
    requires forall n :: Clean(ids(n)) && Clean(names(n))
    requires forall n :: 0 <= n < |docs| ==> Alone(names(n), docs[n])
    ensures Documents(sdk, decode, PrintAll(SingleWires(encode, docs, ids, names))) == Keep(docs, sdk)
  {
    hide PrintAll, Clean, AllDocs, Keep, Alone;
    var es := SingleWires(encode, docs, ids, names);
    forall e | e in es ensures CleanEvent(e) {
      var i :| 0 <= i < |es| && es[i] == e;
      assert Clean(encode(docs[i])) && Clean(ids(i)) && Clean(names(i));
    }
    ReadPrinted(sdk, es);
    forall i | 0 <= i < |docs|
      ensures decode(FramesOf(es)[i].data) == Some(docs[i]) && Alone(FramesOf(es)[i].event, docs[i])
    {
      assert decode(encode(docs[i])) == Some(docs[i]);
    }
    SingleDocs(sdk, decode, FramesOf(es), docs);
  }

  /**
   * Batching preserves meaning, end to end: for every SDK, any grouping of documents into `event: batch`
   * frames yields what one frame per document yields, namely the documents that its filter accepts; and
   * of well-formed documents that is all of them.
   */
  lemma {:induction false} BatchingIsTransparent(
    sdk: Sdk, encode: JsonEncoder, decode: Decoder, groups: seq<seq<Json>>,
    ids: nat -> string, ids': nat -> string, names: nat -> string)
    requires Encodes(encode, decode)
    requires forall n :: Clean(ids(n)) && Clean(ids'(n)) && Clean(names(n))
    requires forall n :: 0 <= n < |Flatten(groups)| ==> Alone(names(n), Flatten(groups)[n])
    ensures Documents(sdk, decode, PrintAll(BatchWires(encode, groups, ids))) == Keep(Flatten(groups), sdk)
    ensures Documents(sdk, decode, PrintAll(SingleWires(encode, Flatten(groups), ids', names)))
         == Keep(Flatten(groups), sdk)
    ensures (forall d :: d in Flatten(groups) ==> WellFormedDoc(d)) ==> Keep(Flatten(groups), sdk) == Flatten(groups)
  {
    hide WellFormedDoc, PrintAll, Clean, Documents, Encodes, Flatten, Keep, Alone;
    BatchStream(sdk, encode, decode, groups, ids);
    SingleStream(sdk, encode, decode, Flatten(groups), ids', names);
    if forall d :: d in Flatten(groups) ==> WellFormedDoc(d) {
      KeepWellFormed(Flatten(groups), sdk);
    }
  }

  lemma BatchIsClean()
    ensures Clean("batch")
  {
  }

  // ---- the reference hosts' own events ----------------------------------------------------------------------

  /** The JSON object of a reference host's event: `seq`, not `sequence`, and no `eventId`. */
  function HostDoc(run: string, entry: EventLog.Entry, timestamp: string, rest: map<string, Json>): Json {
    Object((map k | k in rest && k in {"nodeId", "data"} :: rest[k])
           + map["seq" := Number(entry.at), "runId" := Str(run), "type" := Str(TypeName(entry.event)),
                 "timestamp" := Str(timestamp)])
  }

  predicate IsHostDoc(v: Json) { v.Object? && "seq" in v.fields && "eventId" !in v.fields && "sequence" !in v.fields }

  lemma HostDocsAreRejected(v: Json)
    requires IsHostDoc(v)
    ensures Accepts(TypeScript, v) && !Accepts(Go, v) && !Accepts(Python, v)
  {
  }

  lemma {:induction false} HostFrames(sdk: Sdk, decode: Decoder, frames: seq<Frame>, docs: seq<Json>)
    requires |frames| == |docs|
    requires forall i :: 0 <= i < |docs| ==> decode(frames[i].data) == Some(docs[i])
    requires forall i :: 0 <= i < |docs| ==> IsHostDoc(docs[i])
    ensures AllDocs(sdk, decode, frames) == if sdk.TypeScript? then docs else []
    decreases |frames|
  {
    if frames != [] {
      assert IsHostDoc(docs[0]);
      HostDocsAreRejected(docs[0]);
      KeepOne(docs[0], sdk);
      hide IsHostDoc, Accepts, Keep;
      assert forall i :: 0 <= i < |docs[1..]| ==> docs[1..][i] == docs[i + 1] && frames[1..][i] == frames[i + 1];
      HostFrames(sdk, decode, frames[1..], docs[1..]);
    }
  }

  /**
   * On a reference host's stream the SDKs do not agree: TypeScript yields every event, while Go and
   * Python, whose filters ask for `eventId`, yield none.
   */
  lemma HostStreamsPerSdk(
    sdk: Sdk, json: Delivery.Encoder, decode: Decoder, log: seq<EventLog.Entry>, doc: EventLog.Entry -> Json)
    requires Delivery.CleanEncoder(json)
    requires forall e :: decode(json(e)) == Some(doc(e)) && IsHostDoc(doc(e))
    ensures Documents(sdk, decode, PrintAll(Delivery.Wires(json, log)))
         == if sdk.TypeScript? then seq(|log|, i requires 0 <= i < |log| => doc(log[i])) else []
  {
    hide PrintAll, IsHostDoc;
    var es := Delivery.Wires(json, log);
    Delivery.WiresAreClean(json, log);
    ReadPrinted(sdk, es);
    var docs := seq(|log|, i requires 0 <= i < |log| => doc(log[i]));
    forall i | 0 <= i < |docs| ensures decode(FramesOf(es)[i].data) == Some(docs[i]) && IsHostDoc(docs[i]) {
      assert decode(json(log[i])) == Some(doc(log[i]));
    }
    HostFrames(sdk, decode, FramesOf(es), docs);
  }

  /** The objects the hosts serialize are of that kind. */
  lemma HostDocIsHostDoc(run: string, entry: EventLog.Entry, timestamp: string, rest: map<string, Json>)
    ensures IsHostDoc(HostDoc(run, entry, timestamp, rest))
  {
  }
}
