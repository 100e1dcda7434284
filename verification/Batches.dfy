/**
 * From dispatched frames to run-event documents: JSON decoding, `event: batch` flattening and the
 * per-item filters of the three SDKs. The JSON decoder is a parameter (`None` where it throws).
 */
module Batches {
  import opened Options
  import opened Text
  import opened EventStream

  datatype Json =
    | Object(fields: map<string, Json>)
    | Array(items: seq<Json>)
    | Str(text: string)
    | Number(n: int)
    | Bool(b: bool)
    | Null

  datatype Sdk = TypeScript | Go | Python

  type Decoder = string -> Option<Json>

  // ---- what each SDK accepts as one document ------------------------------------------------------

  predicate HasStr(o: map<string, Json>, key: string) { key in o && o[key].Str? }

  /** A field of Go type `string`: absent, null and strings decode, anything else is an error. */
  predicate GoStr(o: map<string, Json>, key: string) { key in o ==> o[key].Str? || o[key].Null? }

  predicate GoInt(o: map<string, Json>, key: string) { key in o ==> o[key].Number? || o[key].Null? }

  predicate GoUnmarshals(o: map<string, Json>) {
    && GoStr(o, "eventId") && GoStr(o, "runId") && GoStr(o, "type") && GoStr(o, "timestamp")
    && GoInt(o, "sequence") && GoStr(o, "nodeId") && GoInt(o, "schemaVersion")
    && GoStr(o, "engineVersion") && GoStr(o, "causationId")
  }

  /** `sendOne`: decode errors and documents without an id or a type are dropped. */
  predicate GoAccepts(v: Json) {
    && v.Object?
    && GoUnmarshals(v.fields)
    && HasStr(v.fields, "eventId") && v.fields["eventId"].text != ""
    && HasStr(v.fields, "type") && v.fields["type"].text != ""
  }

  /** `int(x)`: numbers, booleans and plain numerals convert. */
  predicate PythonInt(v: Json) { v.Number? || v.Bool? || (v.Str? && ParseDecimal(v.text).Some?) }

  /** Every integer and boolean converts, and every natural number in print; nothing structured does. */
  lemma NumbersConvert(i: int, b: bool, n: nat, v: Json)
    ensures PythonInt(Number(i)) && PythonInt(Bool(b))
    ensures PythonInt(Str(Decimal(n)))
    ensures PythonInt(v) ==> !v.Null? && !v.Array? && !v.Object?
  {
    DecimalRoundTrip(n);
  }

  /** `_decode_event_doc`: a dictionary with the five required keys, whose sequence converts to int. */
  predicate PythonAccepts(v: Json) {
    && v.Object?
    && "eventId" in v.fields && "runId" in v.fields && "type" in v.fields && "timestamp" in v.fields
    && "sequence" in v.fields && PythonInt(v.fields["sequence"])
  }

  /** The published document shape (`run-event.schema.json`, top level). */
  predicate WellFormedDoc(v: Json) {
    && v.Object?
    && GoUnmarshals(v.fields)
    && HasStr(v.fields, "eventId") && v.fields["eventId"].text != ""
    && HasStr(v.fields, "type") && v.fields["type"].text != ""
    && HasStr(v.fields, "runId") && HasStr(v.fields, "timestamp")
    && "sequence" in v.fields && v.fields["sequence"].Number?
  }

  /**
   * The published shape is exactly what the Go and the Python filter both accept, but for nulls where a
   * string is due and sequence numbers that Python would convert.
   */
  lemma WellFormedIsAcceptedByAll(v: Json)
    ensures WellFormedDoc(v) <==>
              && GoAccepts(v) && PythonAccepts(v)
              && !v.fields["runId"].Null? && !v.fields["timestamp"].Null? && v.fields["sequence"].Number?
  {
  }

  function Keep(vs: seq<Json>, sdk: Sdk): seq<Json> {
    if vs == [] then []
    else (if Accepts(sdk, vs[0]) then [vs[0]] else []) + Keep(vs[1..], sdk)
  }

  predicate Accepts(sdk: Sdk, v: Json) {
    match sdk
    case TypeScript => true
    case Go => GoAccepts(v)
    case Python => PythonAccepts(v)
  }

  /** The documents one frame turns into. Go and Python filter items; TypeScript passes them through. */
  function Docs(sdk: Sdk, decode: Decoder, event: string, data: string): seq<Json> {
    match decode(data)
    case None => []
    case Some(v) => if event == "batch" && v.Array? then Keep(v.items, sdk) else Keep([v], sdk)
  }

  function AllDocs(sdk: Sdk, decode: Decoder, frames: seq<Frame>): seq<Json> {
    if frames == [] then []
    else Docs(sdk, decode, frames[0].event, frames[0].data) + AllDocs(sdk, decode, frames[1..])
  }

  lemma {:induction false} AllDocsConcat(sdk: Sdk, decode: Decoder, a: seq<Frame>, b: seq<Frame>)
    ensures AllDocs(sdk, decode, a + b) == AllDocs(sdk, decode, a) + AllDocs(sdk, decode, b)
  {
    if a == [] {
      assert a + b == b;
    } else {
      var rest := (a + b)[1..];
      assert rest == a[1..] + b && (a + b)[0] == a[0];
      AllDocsConcat(sdk, decode, a[1..], b);
      var docs := Docs(sdk, decode, a[0].event, a[0].data);
      assert AllDocs(sdk, decode, a + b) == docs + AllDocs(sdk, decode, rest);
      assert docs + (AllDocs(sdk, decode, a[1..]) + AllDocs(sdk, decode, b))
          == (docs + AllDocs(sdk, decode, a[1..])) + AllDocs(sdk, decode, b);
    }
  }

  /** A frame whose data is no JSON leaves no trace: the documents are those of the other frames. */
  lemma NoJsonLeavesNoTrace(sdk: Sdk, decode: Decoder, a: seq<Frame>, f: Frame, b: seq<Frame>)
    requires decode(f.data).None?
    ensures AllDocs(sdk, decode, a + [f] + b) == AllDocs(sdk, decode, a + b)
  {
    AllDocsConcat(sdk, decode, a + [f], b);
    AllDocsConcat(sdk, decode, a, [f]);
    AllDocsConcat(sdk, decode, a, b);
    assert [f][1..] == [];
    assert AllDocs(sdk, decode, []) == [];
    assert AllDocs(sdk, decode, [f]) == Docs(sdk, decode, f.event, f.data) + AllDocs(sdk, decode, []);
    assert AllDocs(sdk, decode, a) + [] == AllDocs(sdk, decode, a);
  }

  /** Flushing a pending event contributes exactly its own documents. */
  lemma FlushDocs(sdk: Sdk, decode: Decoder, m: Machine)
    ensures AllDocs(sdk, decode, m.frames + Flushed(m.pending))
         == AllDocs(sdk, decode, m.frames)
            + if m.pending.data == [] then [] else Docs(sdk, decode, m.pending.event, Join(m.pending.data, "\n"))
  {
    AllDocsConcat(sdk, decode, m.frames, Flushed(m.pending));
    if m.pending.data != [] {
      var f := Flushed(m.pending)[0];
      assert Flushed(m.pending)[1..] == [];
      assert Docs(sdk, decode, f.event, f.data) + [] == Docs(sdk, decode, f.event, f.data);
    }
  }

  lemma KeepOne(v: Json, sdk: Sdk)
    ensures Keep([v], sdk) == if Accepts(sdk, v) then [v] else []
  {
    assert [v][1..] == [];
  }

  lemma {:induction false} KeepWellFormed(vs: seq<Json>, sdk: Sdk)
    requires forall v :: v in vs ==> WellFormedDoc(v)
    ensures Keep(vs, sdk) == vs
  {
    if vs != [] {
      assert vs[0] in vs;
      KeepWellFormed(vs[1..], sdk);
    }
  }

  /** One document, several under the `batch` event, or no JSON at all. */
  ghost predicate WellFormedFrame(decode: Decoder, f: Frame) {
    match decode(f.data)
    case None => true
    case Some(v) =>
      WellFormedDoc(v) || (f.event == "batch" && v.Array? && forall d :: d in v.items ==> WellFormedDoc(d))
  }

  /** On well-formed frames the three SDKs hand the same documents to their callers. */
  lemma {:induction false} SdksAgreeOnFrames(decode: Decoder, frames: seq<Frame>, s1: Sdk, s2: Sdk)
    requires forall f :: f in frames ==> WellFormedFrame(decode, f)
    ensures AllDocs(s1, decode, frames) == AllDocs(s2, decode, frames)
  {
    if frames != [] {
      var f := frames[0];
      assert f in frames;
      if decode(f.data).Some? {
        var v := decode(f.data).value;
        if v.Array? {
          KeepWellFormed(v.items, s1);
          KeepWellFormed(v.items, s2);
        } else {
          KeepWellFormed([v], s1);
          KeepWellFormed([v], s2);
        }
      }
      SdksAgreeOnFrames(decode, frames[1..], s1, s2);
    }
  }

  lemma {:induction false} TypeScriptKeepsAll(vs: seq<Json>)
    ensures Keep(vs, TypeScript) == vs
  {
    if vs != [] {
      TypeScriptKeepsAll(vs[1..]);
    }
  }

  lemma {:induction false} KeepConcat(a: seq<Json>, b: seq<Json>, sdk: Sdk)
    ensures Keep(a + b, sdk) == Keep(a, sdk) + Keep(b, sdk)
  {
    if a == [] {
      assert a + b == b;
    } else {
      hide Accepts;
      var rest := (a + b)[1..];
      assert rest == a[1..] + b && (a + b)[0] == a[0];
      KeepConcat(a[1..], b, sdk);
      var first := if Accepts(sdk, a[0]) then [a[0]] else [];
      assert Keep(a + b, sdk) == first + Keep(rest, sdk) && Keep(a, sdk) == first + Keep(a[1..], sdk);
      hide Keep;
      assert first + (Keep(a[1..], sdk) + Keep(b, sdk)) == (first + Keep(a[1..], sdk)) + Keep(b, sdk);
    }
  }

  /** Nothing is dropped exactly if everything is accepted. */
  lemma {:induction false} KeepAll(vs: seq<Json>, sdk: Sdk)
    ensures |Keep(vs, sdk)| <= |vs|
    ensures Keep(vs, sdk) == vs <==> forall v :: v in vs ==> Accepts(sdk, v)
  {
    if vs != [] {
      KeepAll(vs[1..], sdk);
      assert vs == [vs[0]] + vs[1..];
      if Keep(vs, sdk) == vs {
        assert |Keep(vs, sdk)| == |vs|;
      }
    }
  }

  /** What an SDK yields is its filter applied to what TypeScript yields. */
  lemma {:induction false} DocsAreFiltered(sdk: Sdk, decode: Decoder, frames: seq<Frame>)
    ensures AllDocs(sdk, decode, frames) == Keep(AllDocs(TypeScript, decode, frames), sdk)
  {
    if frames != [] {
      var f := frames[0];
      DocsAreFiltered(sdk, decode, frames[1..]);
      if decode(f.data).Some? {
        var v := decode(f.data).value;
        TypeScriptKeepsAll([v]);
        if v.Array? {
          TypeScriptKeepsAll(v.items);
        }
      }
      hide Accepts, Keep;
      KeepConcat(Docs(TypeScript, decode, f.event, f.data), AllDocs(TypeScript, decode, frames[1..]), sdk);
      KeepNothing(sdk);
    } else {
      KeepNothing(sdk);
    }
  }

  lemma KeepNothing(sdk: Sdk)
    ensures Keep([], sdk) == []
  {
  }

  /** An SDK agrees with TypeScript exactly if it accepts every document TypeScript yields. */
  lemma SdkAgreesExactly(sdk: Sdk, decode: Decoder, frames: seq<Frame>)
    ensures AllDocs(sdk, decode, frames) == AllDocs(TypeScript, decode, frames) <==>
              forall v :: v in AllDocs(TypeScript, decode, frames) ==> Accepts(sdk, v)
  {
    DocsAreFiltered(sdk, decode, frames);
    KeepAll(AllDocs(TypeScript, decode, frames), sdk);
  }

  /** Documents depend on event and data only, never on the `id:` line. */
  predicate SameIgnoringId(a: seq<Frame>, b: seq<Frame>) {
    |a| == |b| && forall i :: 0 <= i < |a| ==> a[i].event == b[i].event && a[i].data == b[i].data
  }

  lemma {:induction false} DocsIgnoreIds(sdk: Sdk, decode: Decoder, a: seq<Frame>, b: seq<Frame>)
    requires SameIgnoringId(a, b)
    ensures AllDocs(sdk, decode, a) == AllDocs(sdk, decode, b)
  {
    if a != [] {
      assert SameIgnoringId(a[1..], b[1..]);
      DocsIgnoreIds(sdk, decode, a[1..], b[1..]);
      hide Docs;
    }
  }
}
