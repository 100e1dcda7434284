/**
 * The four hand-written event-stream readers, loop by loop. Each method is proved against the
 * whole-text reading of `EventStream`, so what it returns does not depend on how the network cut
 * the stream into chunks.
 */
module StreamClients {
  import opened Options
  import opened Text
  import opened EventStream
  import opened Batches

  lemma MapCons(f: string -> string, line: string, rest: seq<string>)
    ensures Map(f, [line] + rest) == [f(line)] + Map(f, rest)
  {
  }

  /** One turn of the machine on text whose first line is known. */
  lemma AfterLineOf(m: Machine, text: string, line: string, rest: string)
    requires '\n' !in line && text == line + "\n" + rest
    ensures After(m, text) == After(StepLine(m, StripOneCr(line)), rest)
  {
    FirstLine(line, rest);
    MapCons(StripOneCr, line, Lines(rest));
    assert ([StripOneCr(line)] + Map(StripOneCr, Lines(rest)))[1..] == Map(StripOneCr, Lines(rest));
  }

  /** Splitting the buffer at its first newline. */
  lemma {:induction false} AfterSplit(m: Machine, buffer: string, later: string)
    requires IndexOf(buffer, '\n') != -1
    ensures var i := IndexOf(buffer, '\n');
            After(m, buffer + later) == After(StepLine(m, StripOneCr(buffer[..i])), buffer[i + 1..] + later)
  {
    hide After, Lines;
    var i := IndexOf(buffer, '\n');
    SplitAt(buffer, later, i);
    AfterLineOf(m, buffer + later, buffer[..i], buffer[i + 1..] + later);
  }

  lemma SplitAt(buffer: string, later: string, i: nat)
    requires i < |buffer| && buffer[i] == '\n'
    ensures buffer + later == buffer[..i] + "\n" + (buffer[i + 1..] + later)
  {
    assert buffer == buffer[..i] + "\n" + buffer[i + 1..];
  }

  /** Without a newline left, only the pending event remains to be flushed. */
  lemma AfterNothing(m: Machine, buffer: string)
    requires '\n' !in buffer
    ensures After(m, buffer) == m.frames + Flushed(m.pending)
  {
    NoNewline(buffer);
  }

  /** The next chunk moves from the network into the buffer. */
  lemma ChunkMoves(buffer: string, chunks: seq<string>, k: nat)
    requires k < |chunks|
    ensures buffer + Concat(chunks[k..]) == (buffer + chunks[k]) + Concat(chunks[k + 1..])
  {
    assert chunks[k..][0] == chunks[k] && chunks[k..][1..] == chunks[k + 1..];
  }

  lemma CommentLine(line: string)
    requires line != "" && line[0] == ':'
    ensures Field(line) == ""
  {
    IndexOfUnique(line, ':', 0);
  }

  /** The `switch (field)` of a non-blank line. */
  method ApplyField(rawLine: string, event: string, data: seq<string>, id: Option<string>)
    returns (event': string, data': seq<string>, id': Option<string>)
    requires rawLine != ""
    ensures Pending(event', data', id') == TakeLine(Pending(event, data, id), rawLine)
  {
    event', data', id' := event, data, id;
    if rawLine[0] == ':' {
      CommentLine(rawLine);
      return;
    }
    var colon := IndexOf(rawLine, ':');
    var field := if colon == -1 then rawLine else rawLine[..colon];
    var valueRaw := if colon == -1 then "" else rawLine[colon + 1..];
    var fieldValue := if valueRaw != "" && valueRaw[0] == ' ' then valueRaw[1..] else valueRaw;
    assert field == Field(rawLine) && fieldValue == Value(rawLine);
    hide Field, Value, IndexOf;
    match field {
      case "event" => event' := fieldValue;
      case "data" => data' := data + [fieldValue];
      case "id" => id' := Some(fieldValue);
      case _ =>
    }
  }

  /** `subscribe` of the conformance suite: collect every frame until the stream ends. */
  method Subscribe(chunks: seq<string>) returns (events: seq<Frame>)
    ensures events == ParseTerminated(Concat(chunks))
  {
    hide Lines, TakeLine;
    var buffer := "";
    var pendingEvent, pendingData, pendingId := "message", [], None;
    events := [];
    ghost var m := INITIAL;
    var k := 0;
    ghost var goal := ParseTerminated(Concat(chunks));
    assert chunks[0..] == chunks && buffer + Concat(chunks) == Concat(chunks);
    assert After(m, Concat(chunks)) == goal;
    while k < |chunks|
      invariant 0 <= k <= |chunks|
      invariant '\n' !in buffer
      invariant m == Machine(Pending(pendingEvent, pendingData, pendingId), events)
      invariant After(m, buffer + Concat(chunks[k..])) == goal
    {
      ghost var later := Concat(chunks[k + 1..]);
      ChunkMoves(buffer, chunks, k);
      buffer := buffer + chunks[k];
      k := k + 1;
      var nlIdx := IndexOf(buffer, '\n');
      while nlIdx != -1
        invariant nlIdx == IndexOf(buffer, '\n')
        invariant m == Machine(Pending(pendingEvent, pendingData, pendingId), events)
        invariant After(m, buffer + later) == goal
        decreases |buffer|
      {
        AfterSplit(m, buffer, later);
        var rawLine := StripOneCr(buffer[..nlIdx]);
        m := StepLine(m, rawLine);
        buffer := buffer[nlIdx + 1..];
        nlIdx := IndexOf(buffer, '\n');
        if rawLine == "" {
          events := FlushEvent(pendingEvent, pendingData, pendingId, events);
          pendingEvent, pendingData, pendingId := "message", [], None;
          continue;
        }
        pendingEvent, pendingData, pendingId := ApplyField(rawLine, pendingEvent, pendingData, pendingId);
      }
    }
    assert buffer + Concat(chunks[k..]) == buffer;
    AfterNothing(m, buffer);
    events := FlushEvent(pendingEvent, pendingData, pendingId, events);
  }

  /** `flushEvent`, minus the reset of the pending variables. */
  method FlushEvent(event: string, data: seq<string>, id: Option<string>, events: seq<Frame>)
    returns (events': seq<Frame>)
    ensures events' == events + Flushed(Pending(event, data, id))
  {
    events' := events;
    if data != [] {
      events' := events' + [Frame(event, Join(data, "\n"), id)];
    }
  }

  /** The TypeScript SDK generator: same loop, documents instead of frames. */
  method TypeScriptStreamEvents(chunks: seq<string>, decode: Decoder) returns (yielded: seq<Json>)
    ensures yielded == AllDocs(TypeScript, decode, ParseTerminated(Concat(chunks)))
  {
    hide Lines, TakeLine;
    var buffer := "";
    var pendingEvent, pendingData, pendingId := "message", [], None;
    yielded := [];
    ghost var m := INITIAL;
    assert AllDocs(TypeScript, decode, m.frames) == [];
    hide AllDocs, Docs;
    var k := 0;
    ghost var goal := ParseTerminated(Concat(chunks));
    assert chunks[0..] == chunks && buffer + Concat(chunks) == Concat(chunks);
    assert After(m, Concat(chunks)) == goal;
    while k < |chunks|
      invariant 0 <= k <= |chunks|
      invariant '\n' !in buffer
      invariant m.pending == Pending(pendingEvent, pendingData, pendingId)
      invariant yielded == AllDocs(TypeScript, decode, m.frames)
      invariant After(m, buffer + Concat(chunks[k..])) == goal
    {
      ghost var later := Concat(chunks[k + 1..]);
      ChunkMoves(buffer, chunks, k);
      buffer := buffer + chunks[k];
      k := k + 1;
      var nlIdx := IndexOf(buffer, '\n');
      while nlIdx != -1
        invariant nlIdx == IndexOf(buffer, '\n')
        invariant m.pending == Pending(pendingEvent, pendingData, pendingId)
        invariant yielded == AllDocs(TypeScript, decode, m.frames)
        invariant After(m, buffer + later) == goal
        decreases |buffer|
      {
        AfterSplit(m, buffer, later);
        var rawLine := StripOneCr(buffer[..nlIdx]);
        ghost var before := m;
        m := StepLine(m, rawLine);
        buffer := buffer[nlIdx + 1..];
        nlIdx := IndexOf(buffer, '\n');
        if rawLine == "" {
          FlushDocs(TypeScript, decode, before);
          var docs := TypeScriptFlush(pendingEvent, pendingData, decode);
          pendingEvent, pendingData, pendingId := "message", [], None;
          yielded := yielded + docs;
          continue;
        }
        pendingEvent, pendingData, pendingId := ApplyField(rawLine, pendingEvent, pendingData, pendingId);
      }
    }
    assert buffer + Concat(chunks[k..]) == buffer;
    AfterNothing(m, buffer);
    FlushDocs(TypeScript, decode, m);
    var final := TypeScriptFlush(pendingEvent, pendingData, decode);
    yielded := yielded + final;
  }

  /** `flushAndYield`, minus the reset of the pending variables. */
  method TypeScriptFlush(event: string, data: seq<string>, decode: Decoder) returns (docs: seq<Json>)
    ensures docs == if data == [] then [] else Docs(TypeScript, decode, event, Join(data, "\n"))
  {
    if data == [] {
      return [];
    }
    match decode(Join(data, "\n")) {
      case None => docs := [];
      case Some(parsed) =>
        if event == "batch" && parsed.Array? {
          TypeScriptKeepsAll(parsed.items);
          docs := parsed.items;
        } else {
          TypeScriptKeepsAll([parsed]);
          docs := [parsed];
        }
    }
  }

  // ---- readers that receive whole lines -----------------------------------------------------------

  /** The scanner's next token: up to the newline, or everything that is left. */
  lemma AllLinesNext(rest: string)
    requires rest != ""
    ensures AllLines(rest) == [NextLine(rest)] + AllLines(AfterLine(rest))
  {
    hide Lines, Tail;
    var nl := IndexOf(rest, '\n');
    if nl == -1 {
      NoNewline(rest);
      NoNewline("");
    } else {
      assert rest == rest[..nl] + "\n" + rest[nl + 1..];
      FirstLine(rest[..nl], rest[nl + 1..]);
    }
  }

  function NextLine(rest: string): string {
    var nl := IndexOf(rest, '\n');
    if nl == -1 then rest else rest[..nl]
  }

  function AfterLine(rest: string): string {
    var nl := IndexOf(rest, '\n');
    if nl == -1 then "" else rest[nl + 1..]
  }

  lemma RunNextLine(m: Machine, rest: string)
    requires rest != ""
    ensures AfterAll(m, rest) == AfterAll(StepLine(m, StripAllCrs(NextLine(rest))), AfterLine(rest))
    ensures StripAllCrs(StripOneCr(NextLine(rest))) == StripAllCrs(NextLine(rest))
  {
    var line, later := NextLine(rest), AllLines(AfterLine(rest));
    AllLinesNext(rest);
    MapCons(StripAllCrs, line, later);
    var mapped := Map(StripAllCrs, later);
    var stripped := StripAllCrs(line);
    assert Map(StripAllCrs, AllLines(rest)) == [stripped] + mapped;
    assert ([stripped] + mapped)[1..] == mapped && ([stripped] + mapped)[0] == stripped;
  }

  lemma AfterAllStart(body: string)
    ensures AfterAll(INITIAL, body) == ParseAllLines(body)
  {
  }

  lemma AfterAllNothing(m: Machine)
    ensures AfterAll(m, "") == m.frames + Flushed(m.pending)
  {
    NoNewline("");
  }

  /** The Go switch: as above, but `id:` lines are not looked at. */
  method ApplyFieldWithoutId(line: string, event: string, data: seq<string>)
    returns (event': string, data': seq<string>)
    requires line != ""
    ensures forall id :: Pending(event', data', TakeLine(Pending(event, data, id), line).id)
                      == TakeLine(Pending(event, data, id), line)
  {
    event', data' := event, data;
    if line[0] == ':' {
      CommentLine(line);
      return;
    }
    var colon := IndexOf(line, ':');
    var field, value := line, "";
    if colon != -1 {
      field, value := line[..colon], line[colon + 1..];
      if value != "" && value[0] == ' ' {
        value := value[1..];
      }
    }
    match field {
      case "data" => data' := data + [value];
      case "event" => event' := value;
      case _ =>
    }
  }

  /** The Go goroutine: `bufio.Scanner` drops one carriage return, `TrimRight` the others. */
  method GoStreamEvents(body: string, decode: Decoder) returns (sent: seq<Json>)
    ensures sent == AllDocs(Go, decode, ParseAllLines(body))
  {
    hide Lines, TakeLine, StripAllCrs, AfterAll;
    var rest := body;
    var pendingData, pendingEvent := [], "message";
    sent := [];
    ghost var m := INITIAL;
    assert AllDocs(Go, decode, m.frames) == [];
    assert AfterAll(m, rest) == ParseAllLines(body) by { AfterAllStart(body); }
    hide AllDocs, Docs;
    while rest != ""
      invariant m.pending.data == pendingData && m.pending.event == pendingEvent
      invariant sent == AllDocs(Go, decode, m.frames)
      invariant AfterAll(m, rest) == ParseAllLines(body)
      decreases |rest|
    {
      RunNextLine(m, rest);
      var nl := IndexOf(rest, '\n');
      var token := StripOneCr(if nl == -1 then rest else rest[..nl]);
      rest := if nl == -1 then "" else rest[nl + 1..];
      var line := StripAllCrs(token);
      ghost var before := m;
      m := StepLine(m, line);
      if line == "" {
        FlushDocs(Go, decode, before);
        var docs := GoFlush(pendingEvent, pendingData, decode);
        pendingData, pendingEvent := [], "message";
        sent := sent + docs;
        continue;
      }
      pendingEvent, pendingData := ApplyFieldWithoutId(line, pendingEvent, pendingData);
    }
    AfterAllNothing(m);
    FlushDocs(Go, decode, m);
    var final := GoFlush(pendingEvent, pendingData, decode);
    sent := sent + final;
  }

  /** `flush` and `sendOne`; a batch that is no array (or does not decode) is sent as one document. */
  method GoFlush(event: string, data: seq<string>, decode: Decoder) returns (docs: seq<Json>)
    ensures docs == if data == [] then [] else Docs(Go, decode, event, Join(data, "\n"))
  {
    docs := [];
    if data == [] {
      return;
    }
    var raw := decode(Join(data, "\n"));
    if event == "batch" && raw.Some? && raw.value.Array? {
      docs := FilterItems(raw.value.items, Go);
      return;
    }
    if raw.Some? && GoAccepts(raw.value) {
      docs := [raw.value];
    }
    if raw.Some? {
      KeepOne(raw.value, Go);
    }
  }

  lemma KeepNext(items: seq<Json>, sdk: Sdk, i: nat)
    requires i < |items|
    ensures Keep(items[i..], sdk)
         == (if Accepts(sdk, items[i]) then [items[i]] else []) + Keep(items[i + 1..], sdk)
  {
    assert items[i..][1..] == items[i + 1..] && items[i..][0] == items[i];
  }

  lemma Regroup(a: seq<Json>, b: seq<Json>, c: seq<Json>)
    ensures (a + b) + c == a + (b + c)
  {
  }

  /** `for item in batch`: keep what the SDK accepts, in order. */
  method FilterItems(items: seq<Json>, sdk: Sdk) returns (kept: seq<Json>)
    ensures kept == Keep(items, sdk)
  {
    kept := [];
    for i := 0 to |items|
      invariant kept + Keep(items[i..], sdk) == Keep(items, sdk)
    {
      hide Keep, Accepts;
      KeepNext(items, sdk, i);
      Regroup(kept, [items[i]], Keep(items[i + 1..], sdk));
      if Accepts(sdk, items[i]) {
        kept := kept + [items[i]];
      }
    }
  }

  /** The Python generator: iterating the response hands over lines, the last one possibly unterminated. */
  method PythonStreamEvents(body: string, decode: Decoder) returns (yielded: seq<Json>)
    ensures yielded == AllDocs(Python, decode, ParseAllLines(body))
  {
    hide Lines, TakeLine, StripAllCrs, AfterAll;
    var rest := body;
    var pendingEvent, pendingData, pendingId := "message", [], None;
    yielded := [];
    ghost var m := INITIAL;
    assert AllDocs(Python, decode, m.frames) == [];
    assert AfterAll(m, rest) == ParseAllLines(body) by { AfterAllStart(body); }
    hide AllDocs, Docs;
    while rest != ""
      invariant m.pending == Pending(pendingEvent, pendingData, pendingId)
      invariant yielded == AllDocs(Python, decode, m.frames)
      invariant AfterAll(m, rest) == ParseAllLines(body)
      decreases |rest|
    {
      RunNextLine(m, rest);
      var nl := IndexOf(rest, '\n');
      var line := StripAllCrs(if nl == -1 then rest else rest[..nl]);
      rest := if nl == -1 then "" else rest[nl + 1..];
      ghost var before := m;
      m := StepLine(m, line);
      if line == "" {
        FlushDocs(Python, decode, before);
        var docs := PythonFlush(pendingEvent, pendingData, decode);
        pendingEvent, pendingData, pendingId := "message", [], None;
        yielded := yielded + docs;
        continue;
      }
      pendingEvent, pendingData, pendingId := ApplyField(line, pendingEvent, pendingData, pendingId);
    }
    AfterAllNothing(m);
    FlushDocs(Python, decode, m);
    var final := PythonFlush(pendingEvent, pendingData, decode);
    yielded := yielded + final;
  }

  /** `_flush_event`: only a dictionary, or a list under `batch`, yields documents. */
  method PythonFlush(event: string, data: seq<string>, decode: Decoder) returns (docs: seq<Json>)
    ensures docs == if data == [] then [] else Docs(Python, decode, event, Join(data, "\n"))
  {
    docs := [];
    if data == [] {
      return;
    }
    match decode(Join(data, "\n")) {
      case None =>
      case Some(parsed) =>
        KeepOne(parsed, Python);
        if event == "batch" && parsed.Array? {
          docs := FilterItems(parsed.items, Python);
        } else if parsed.Object? && PythonAccepts(parsed) {
          docs := [parsed];
        }
    }
  }
}
