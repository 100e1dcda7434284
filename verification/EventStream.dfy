/**
 * What the hand-written event-stream consumers compute, as a function of the whole text received:
 * cut the text at every newline, strip carriage returns, run a line machine, flush once more at the
 * end. `FramesOfBlocks` says the same without a machine, block by block.
 */
module EventStream {
  import opened Options
  import opened Text

  /** One dispatched event: its type, its data lines joined by newlines and the `id:` seen in it. */
  datatype Frame = Frame(event: string, data: string, id: Option<string>)

  /** The fields carried from line to line until the next blank line. */
  datatype Pending = Pending(event: string, data: seq<string>, id: Option<string>)

  datatype Machine = Machine(pending: Pending, frames: seq<Frame>)

  const FRESH := Pending("message", [], None)
  const INITIAL := Machine(FRESH, [])

  // ---- cutting text into lines ------------------------------------------------------------------

  /** The newline-terminated lines of `t`, without their newlines. */
  function Lines(t: string): (ls: seq<string>)
    decreases |t|
  {
    var i := IndexOf(t, '\n');
    if i == -1 then [] else [t[..i]] + Lines(t[i + 1..])
  }

  /** What follows the last newline of `t`. */
  function Tail(t: string): (r: string)
    ensures '\n' !in r && |r| <= |t|
    decreases |t|
  {
    var i := IndexOf(t, '\n');
    if i == -1 then t else Tail(t[i + 1..])
  }

  lemma {:induction false} NoNewline(t: string)
    requires '\n' !in t
    ensures Lines(t) == [] && Tail(t) == t
  {
  }

  lemma {:induction false} FirstLine(line: string, rest: string)
    requires '\n' !in line
    ensures Lines(line + "\n" + rest) == [line] + Lines(rest)
    ensures Tail(line + "\n" + rest) == Tail(rest)
  {
    var t := line + "\n" + rest;
    assert t[|line|] == '\n' && t[..|line|] == line && t[|line| + 1..] == rest;
    IndexOfUnique(t, '\n', |line|);
  }

  /** Cutting `a + b` only re-reads the unterminated tail of `a`: the heart of chunk independence. */
  lemma {:induction false} LinesConcat(a: string, b: string)
    ensures Lines(a + b) == Lines(a) + Lines(Tail(a) + b)
    ensures Tail(a + b) == Tail(Tail(a) + b)
    decreases |a|
  {
    hide Lines, Tail;
    var i := IndexOf(a, '\n');
    if i == -1 {
      NoNewline(a);
      assert [] + Lines(a + b) == Lines(a + b);
    } else {
      var rest := a[i + 1..];
      assert a == a[..i] + "\n" + rest;
      assert a + b == a[..i] + "\n" + (rest + b);
      FirstLine(a[..i], rest);
      FirstLine(a[..i], rest + b);
      LinesConcat(rest, b);
      assert [a[..i]] + (Lines(rest) + Lines(Tail(rest) + b)) == ([a[..i]] + Lines(rest)) + Lines(Tail(rest) + b);
    }
  }

  // ---- one line ---------------------------------------------------------------------------------

  /** `replace(/\r$/, '')`: at most one carriage return goes. */
  function StripOneCr(line: string): string {
    if line != "" && line[|line| - 1] == '\r' then line[..|line| - 1] else line
  }

  /** `TrimRight(line, "\r")` and `rstrip("\r\n")` on one line: every trailing carriage return goes. */
  function StripAllCrs(line: string): (r: string)
    ensures r <= line
    ensures r != "" ==> r[|r| - 1] != '\r'
  {
    if line != "" && line[|line| - 1] == '\r' then StripAllCrs(line[..|line| - 1]) else line
  }

  /** The two stripping rules differ exactly on lines that end in two carriage returns. */
  lemma {:induction false} StripsAgree(line: string)
    ensures StripOneCr(line) == StripAllCrs(line)
      <==> !(|line| >= 2 && line[|line| - 1] == '\r' && line[|line| - 2] == '\r')
  {
    if line != "" && line[|line| - 1] == '\r' {
      var shorter := line[..|line| - 1];
      if |line| >= 2 && line[|line| - 2] == '\r' {
        assert |StripAllCrs(shorter[..|shorter| - 1])| <= |shorter| - 1;
      }
    }
  }

  function Map(f: string -> string, lines: seq<string>): (r: seq<string>)
    ensures |r| == |lines|
    ensures forall i :: 0 <= i < |lines| ==> r[i] == f(lines[i])
  {
    seq(|lines|, i requires 0 <= i < |lines| => f(lines[i]))
  }

  function Field(line: string): string {
    var c := IndexOf(line, ':');
    if c == -1 then line else line[..c]
  }

  function Value(line: string): string {
    var c := IndexOf(line, ':');
    var raw := if c == -1 then "" else line[c + 1..];
    if raw != "" && raw[0] == ' ' then raw[1..] else raw
  }

  /** A comment line (leading colon) has the empty field name, so no `case` matches it. */
  function TakeLine(p: Pending, line: string): Pending {
    if Field(line) == "event" then p.(event := Value(line))
    else if Field(line) == "data" then p.(data := p.data + [Value(line)])
    else if Field(line) == "id" then p.(id := Some(Value(line)))
    else p
  }

  function Flushed(p: Pending): seq<Frame> {
    if p.data == [] then [] else [Frame(p.event, Join(p.data, "\n"), p.id)]
  }

  function StepLine(m: Machine, line: string): Machine {
    if line == "" then Machine(FRESH, m.frames + Flushed(m.pending))
    else m.(pending := TakeLine(m.pending, line))
  }

  function RunLines(m: Machine, lines: seq<string>): Machine
    decreases |lines|
  {
    if lines == [] then m else RunLines(StepLine(m, lines[0]), lines[1..])
  }

  lemma {:induction false} RunLinesConcat(m: Machine, a: seq<string>, b: seq<string>)
    ensures RunLines(m, a + b) == RunLines(RunLines(m, a), b)
    decreases |a|
  {
    if a == [] {
      assert a + b == b;
    } else {
      assert (a + b)[1..] == a[1..] + b;
      RunLinesConcat(StepLine(m, a[0]), a[1..], b);
    }
  }

  lemma {:induction false} RunLinesSnoc(m: Machine, a: seq<string>, line: string)
    ensures RunLines(m, a + [line]) == StepLine(RunLines(m, a), line)
  {
    RunLinesConcat(m, a, [line]);
    assert [line][1..] == [];
    assert RunLines(RunLines(m, a), [line]) == RunLines(StepLine(RunLines(m, a), line), []);
  }

  lemma StepShift(m: Machine, line: string)
    ensures var z := StepLine(Machine(m.pending, []), line);
            StepLine(m, line) == Machine(z.pending, m.frames + z.frames)
  {
    assert m.frames + [] == m.frames;
    assert [] + Flushed(m.pending) == Flushed(m.pending);
  }

  /** Frames already dispatched have no influence on later ones. */
  lemma {:induction false} FramesShift(m: Machine, lines: seq<string>)
    ensures RunLines(m, lines)
         == Machine(RunLines(Machine(m.pending, []), lines).pending,
                    m.frames + RunLines(Machine(m.pending, []), lines).frames)
    decreases |lines|
  {
    hide StepLine;
    if lines == [] {
      assert m.frames + [] == m.frames;
    } else {
      var s := StepLine(m, lines[0]);
      var z := StepLine(Machine(m.pending, []), lines[0]);
      StepShift(m, lines[0]);
      FramesShift(s, lines[1..]);
      FramesShift(z, lines[1..]);
      var more := RunLines(Machine(z.pending, []), lines[1..]).frames;
      assert m.frames + z.frames + more == m.frames + (z.frames + more);
    }
  }

  // ---- the two stream-level readings --------------------------------------------------------------

  function Finish(m: Machine): seq<Frame> { m.frames + Flushed(m.pending) }

  /** The TypeScript consumers: an unterminated last line is never looked at. */
  function ParseTerminated(t: string): seq<Frame> {
    Finish(RunLines(INITIAL, Map(StripOneCr, Lines(t))))
  }

  /** The Go and Python consumers: the line readers hand over an unterminated last line as well. */
  function AllLines(t: string): seq<string> {
    Lines(t) + if Tail(t) == "" then [] else [Tail(t)]
  }

  function ParseAllLines(t: string): seq<Frame> {
    Finish(RunLines(INITIAL, Map(StripAllCrs, AllLines(t))))
  }

  /** What is dispatched in the end when `text` is still to be read in state `m`. */
  function After(m: Machine, text: string): seq<Frame> {
    Finish(RunLines(m, Map(StripOneCr, Lines(text))))
  }

  function AfterAll(m: Machine, text: string): seq<Frame> {
    Finish(RunLines(m, Map(StripAllCrs, AllLines(text))))
  }

  /** Whole lines can be read ahead of what follows them. */
  lemma ReadAhead(m: Machine, text: string, head: string, rest: string, ls: seq<string>)
    requires text == head + rest && Tail(head) == "" && Lines(head) == ls
    ensures After(m, text) == After(RunLines(m, Map(StripOneCr, ls)), rest)
  {
    hide Lines, Tail, RunLines, StripOneCr;
    LinesConcat(head, rest);
    assert "" + rest == rest;
    assert Map(StripOneCr, ls + Lines(rest)) == Map(StripOneCr, ls) + Map(StripOneCr, Lines(rest));
    RunLinesConcat(m, Map(StripOneCr, ls), Map(StripOneCr, Lines(rest)));
  }

  lemma ReadAheadAll(m: Machine, text: string, head: string, rest: string, ls: seq<string>)
    requires text == head + rest && Tail(head) == "" && Lines(head) == ls
    ensures AfterAll(m, text) == AfterAll(RunLines(m, Map(StripAllCrs, ls)), rest)
  {
    hide Lines, Tail, RunLines, StripAllCrs;
    LinesConcat(head, rest);
    assert "" + rest == rest;
    assert AllLines(text) == ls + AllLines(rest);
    assert Map(StripAllCrs, ls + AllLines(rest)) == Map(StripAllCrs, ls) + Map(StripAllCrs, AllLines(rest));
    RunLinesConcat(m, Map(StripAllCrs, ls), Map(StripAllCrs, AllLines(rest)));
  }

  // ---- the same frames, block by block --------------------------------------------------------------

  /** Maximal stretches of lines between blank lines; the last one may be unterminated. */
  function Blocks(lines: seq<string>): (bs: seq<seq<string>>)
    ensures |bs| > 0
  {
    if lines == [] then [[]]
    else
      var bs := Blocks(lines[1..]);
      if lines[0] == "" then [[]] + bs else [[lines[0]] + bs[0]] + bs[1..]
  }

  /** All values given to `name` in a block, in order. */
  function Values(block: seq<string>, name: string): seq<string> {
    if block == [] then []
    else (if Field(block[0]) == name then [Value(block[0])] else []) + Values(block[1..], name)
  }

  function LastOr<T>(vs: seq<T>, default: T): T { if vs == [] then default else vs[|vs| - 1] }

  function FramesOfBlock(block: seq<string>): seq<Frame> {
    var data := Values(block, "data");
    var ids := Values(block, "id");
    if data == [] then []
    else [Frame(LastOr(Values(block, "event"), "message"), Join(data, "\n"),
                if ids == [] then None else Some(ids[|ids| - 1]))]
  }

  function FramesOfBlocks(blocks: seq<seq<string>>): seq<Frame> {
    if blocks == [] then [] else FramesOfBlock(blocks[0]) + FramesOfBlocks(blocks[1..])
  }

  /** The pending state a block's lines leave behind, on top of what was pending. */
  function Overlay(p: Pending, block: seq<string>): Pending {
    var ids := Values(block, "id");
    Pending(LastOr(Values(block, "event"), p.event), p.data + Values(block, "data"),
            if ids == [] then p.id else Some(ids[|ids| - 1]))
  }

  lemma ValuesCons(line: string, block: seq<string>, name: string)
    ensures Values([line] + block, name)
         == (if Field(line) == name then [Value(line)] else []) + Values(block, name)
  {
    assert ([line] + block)[1..] == block && ([line] + block)[0] == line;
  }

  lemma OverlayCons(p: Pending, line: string, block: seq<string>)
    ensures Overlay(p, [line] + block) == Overlay(TakeLine(p, line), block)
  {
    hide Field, Value, Values;
    ValuesCons(line, block, "data");
    ValuesCons(line, block, "event");
    ValuesCons(line, block, "id");
    assert p.data + ([Value(line)] + Values(block, "data")) == p.data + [Value(line)] + Values(block, "data");
  }

  lemma OverlayFresh(block: seq<string>)
    ensures Flushed(Overlay(FRESH, block)) == FramesOfBlock(block)
  {
    assert [] + Values(block, "data") == Values(block, "data");
  }

  lemma {:induction false} MachineIsBlocks(p: Pending, lines: seq<string>)
    ensures Finish(RunLines(Machine(p, []), lines))
         == Flushed(Overlay(p, Blocks(lines)[0])) + FramesOfBlocks(Blocks(lines)[1..])
    decreases |lines|
  {
    if lines == [] {
      assert Overlay(p, []) == p;
    } else {
      var rest := lines[1..];
      var bs := Blocks(rest);
      if lines[0] == "" {
        BlankLine(p, rest);
        MachineIsBlocks(FRESH, rest);
        OverlayFresh(bs[0]);
        assert Overlay(p, []) == p;
        assert Blocks(lines) == [[]] + bs;
        assert Blocks(lines)[1..] == bs;
        assert lines == [""] + rest;
      } else {
        OverlayCons(p, lines[0], bs[0]);
        MachineIsBlocks(TakeLine(p, lines[0]), rest);
        assert Blocks(lines)[1..] == bs[1..];
      }
    }
  }

  lemma BlankLine(p: Pending, rest: seq<string>)
    ensures Finish(RunLines(Machine(p, []), [""] + rest))
         == Flushed(p) + Finish(RunLines(Machine(FRESH, []), rest))
  {
    assert ([""] + rest)[1..] == rest;
    var s := StepLine(Machine(p, []), "");
    assert s == Machine(FRESH, Flushed(p));
    FramesShift(s, rest);
    var z := RunLines(Machine(FRESH, []), rest);
    assert (Flushed(p) + z.frames) + Flushed(z.pending) == Flushed(p) + (z.frames + Flushed(z.pending));
  }

  /** The line machine dispatches exactly one frame per block that holds a `data` line. */
  lemma ParseIsBlockwise(t: string)
    ensures ParseTerminated(t) == FramesOfBlocks(Blocks(Map(StripOneCr, Lines(t))))
    ensures ParseAllLines(t) == FramesOfBlocks(Blocks(Map(StripAllCrs, AllLines(t))))
  {
    forall lines: seq<string>
      ensures Finish(RunLines(INITIAL, lines)) == FramesOfBlocks(Blocks(lines))
    {
      MachineIsBlocks(FRESH, lines);
      OverlayFresh(Blocks(lines)[0]);
    }
  }
}
