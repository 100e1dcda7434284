/**
 * The TypeScript readers strip one carriage return from the end of a line, the Go and Python readers
 * all of them. What that does to a line, and to the data and the event name of a block of lines.
 */
module CarriageReturns {
  import opened Options
  import opened Text
  import opened EventStream
  import opened Batches
  import opened ParserAgreement

  // ---- one line, read in two ways -----------------------------------------------------------------------

  /** Blank for Go and Python; for TypeScript only if there is at most one carriage return. */
  predicate Blank(line: string) { StripAllCrs(line) == "" }

  /** A data line as Go and Python see it. */
  predicate IsData(line: string) { Field(StripAllCrs(line)) == "data" }

  predicate IsEvent(line: string) { Field(StripAllCrs(line)) == "event" }

  lemma {:induction false} StrippedAreCrs(line: string, i: nat)
    requires |StripAllCrs(line)| <= i < |line|
    ensures line[i] == '\r'
  {
    if line[|line| - 1] == '\r' && i < |line| - 1 {
      StrippedAreCrs(line[..|line| - 1], i);
    }
  }

  /** What a doubled carriage return does: it stays in the value, or, without a colon, in the field name. */
  lemma TwoCrsShow(line: string)
    requires EndsInTwoCrs(line)
    ensures var one, all := StripOneCr(line), StripAllCrs(line);
            if ':' in line then Field(one) == Field(all) && Value(one) != Value(all)
            else Field(one) == one && one[|one| - 1] == '\r' && Field(all) == all && Value(all) == ""
  {
    var one, all := StripOneCr(line), StripAllCrs(line);
    StripsAgree(line);
    StrippedIsShorter(line);
    assert one[|one| - 1] == '\r';
    if ':' in line {
      var c :| 0 <= c < |line| && line[c] == ':';
      if c >= |all| {
        StrippedAreCrs(line, c);
      }
      ColonStays(one, all);
      ValueStays(one, all, line);
    } else {
      assert ':' !in one && ':' !in all;
    }
  }

  lemma StrippedIsShorter(line: string)
    requires EndsInTwoCrs(line)
    ensures StripAllCrs(line) <= StripOneCr(line) && |StripAllCrs(line)| < |StripOneCr(line)|
  {
    var shorter := line[..|line| - 1];
    assert StripAllCrs(line) == StripAllCrs(shorter) == StripAllCrs(shorter[..|shorter| - 1]);
  }

  lemma ColonStays(one: string, all: string)
    requires all <= one && ':' in all
    ensures IndexOf(one, ':') == IndexOf(all, ':') && Field(one) == Field(all)
  {
    var i := IndexOf(all, ':');
    assert one[..i] == all[..i];
    IndexOfUnique(one, ':', i);
  }

  function Unpadded(raw: string): string { if raw != "" && raw[0] == ' ' then raw[1..] else raw }

  lemma LongerStaysLonger(a: string, b: string)
    requires a <= b && |a| < |b| && b[|a|] == '\r'
    ensures Unpadded(a) != Unpadded(b)
  {
    if a == "" {
      assert b[0] == '\r';
    } else {
      assert a[0] == b[0];
      assert |Unpadded(a)| < |Unpadded(b)|;
    }
  }

  lemma ValueAt(line: string, i: nat)
    requires IndexOf(line, ':') == i
    ensures i < |line| && Value(line) == Unpadded(line[i + 1..])
  {
  }

  lemma ValueStays(one: string, all: string, line: string)
    requires one == StripOneCr(line) && all == StripAllCrs(line) && all <= one && |all| < |one| && ':' in all
    requires IndexOf(one, ':') == IndexOf(all, ':')
    ensures Value(one) != Value(all)
  {
    var i := IndexOf(all, ':');
    StrippedAreCrs(line, |all|);
    assert one[|all|] == '\r';
    ValueAt(one, i);
    ValueAt(all, i);
    hide StripOneCr, StripAllCrs, Value, Unpadded, IndexOf;
    SlicedPrefix(one, all, i);
    LongerStaysLonger(all[i + 1..], one[i + 1..]);
  }

  lemma SlicedPrefix(one: string, all: string, i: nat)
    requires all <= one && |all| < |one| && i < |all| && one[|all|] == '\r'
    ensures all[i + 1..] <= one[i + 1..] && |all[i + 1..]| < |one[i + 1..]| && one[i + 1..][|all[i + 1..]|] == '\r'
  {
  }

  /** What one line adds to the values of `name`, under the two readings. */
  function ReadAs(f: string -> string, line: string, name: string): seq<string> {
    if Field(f(line)) == name then [Value(f(line))] else []
  }

  lemma DataLineRead(line: string, name: string)
    requires name == "data" || name == "event"
    ensures ReadAs(StripAllCrs, line, name) == [] ==> ReadAs(StripOneCr, line, name) == []
    ensures ReadAs(StripOneCr, line, name) == ReadAs(StripAllCrs, line, name) <==>
              !(Field(StripAllCrs(line)) == name && EndsInTwoCrs(line))
    ensures EndsInTwoCrs(line) && ':' !in line && Field(StripAllCrs(line)) == name ==>
              ReadAs(StripOneCr, line, name) == [] && ReadAs(StripAllCrs, line, name) == [""]
  {
    StripsAgree(line);
    if EndsInTwoCrs(line) {
      TwoCrsShow(line);
      assert name[|name| - 1] != '\r';
    }
    hide Field, Value, StripOneCr, StripAllCrs;
  }

  // ---- the values of a block --------------------------------------------------------------------------------

  function ValuesRead(f: string -> string, block: seq<string>, name: string): seq<string> {
    Values(Map(f, block), name)
  }

  lemma ReadCons(f: string -> string, line: string, block: seq<string>, name: string)
    ensures ValuesRead(f, [line] + block, name) == ReadAs(f, line, name) + ValuesRead(f, block, name)
  {
    hide Field, Value;
    assert Map(f, [line] + block) == [f(line)] + Map(f, block);
    ValuesCons(f(line), Map(f, block), name);
  }

  lemma Reassociate<T>(x: seq<T>, y: seq<T>, z: seq<T>)
    ensures x + (y + z) == (x + y) + z
  {
  }

  lemma {:induction false} ReadConcat(f: string -> string, a: seq<string>, b: seq<string>, name: string)
    ensures ValuesRead(f, a + b, name) == ValuesRead(f, a, name) + ValuesRead(f, b, name)
  {
    if a == [] {
      assert a + b == b && Map(f, a) == [];
    } else {
      hide ValuesRead, ReadAs;
      var rest := a[1..] + b;
      assert a == [a[0]] + a[1..] && a + b == [a[0]] + rest;
      ReadCons(f, a[0], rest, name);
      ReadCons(f, a[0], a[1..], name);
      ReadConcat(f, a[1..], b, name);
      Reassociate(ReadAs(f, a[0], name), ValuesRead(f, a[1..], name), ValuesRead(f, b, name));
    }
  }

  predicate HasData(block: seq<string>) { exists l :: l in block && IsData(l) }

  /** No data line of the block ends in two carriage returns. */
  predicate CleanData(block: seq<string>) { forall l :: l in block && IsData(l) ==> !EndsInTwoCrs(l) }

  /** The two readings find the same data if and only if no data line ends in two carriage returns. */
  lemma {:induction false} DataRead(block: seq<string>)
    ensures |ValuesRead(StripOneCr, block, "data")| <= |ValuesRead(StripAllCrs, block, "data")|
    ensures ValuesRead(StripAllCrs, block, "data") != [] <==> HasData(block)
    ensures ValuesRead(StripOneCr, block, "data") == ValuesRead(StripAllCrs, block, "data") <==> CleanData(block)
  {
    if block == [] {
      assert Map(StripOneCr, block) == [] && Map(StripAllCrs, block) == [];
    } else {
      var l, rest := block[0], block[1..];
      assert block == [l] + rest;
      DataRead(rest);
      DataLineRead(l, "data");
      ReadCons(StripOneCr, l, rest, "data");
      ReadCons(StripAllCrs, l, rest, "data");
      hide ValuesRead, EndsInTwoCrs, Field, Value;
      assert IsData(l) <==> ReadAs(StripAllCrs, l, "data") != [];
      HeadsMatter(ReadAs(StripOneCr, l, "data"), ReadAs(StripAllCrs, l, "data"),
                  ValuesRead(StripOneCr, rest, "data"), ValuesRead(StripAllCrs, rest, "data"));
    }
  }

  lemma HeadsMatter(a: seq<string>, a': seq<string>, b: seq<string>, b': seq<string>)
    requires |a| <= |a'| && |b| <= |b'|
    ensures a + b == a' + b' <==> a == a' && b == b'
  {
    if a + b == a' + b' {
      assert |a + b| == |a' + b'|;
      assert a == (a + b)[..|a|] && b == (a + b)[|a|..];
    }
  }

  // ---- event names --------------------------------------------------------------------------------------------

  function NameRead(f: string -> string, block: seq<string>): string {
    LastOr(ValuesRead(f, block, "event"), "message")
  }

  /** The last event line; `seen` leaves out those that TypeScript does not recognise. */
  function LastEvent(block: seq<string>, seen: bool): Option<string> {
    if block == [] then None
    else
      var l := block[|block| - 1];
      if IsEvent(l) && !(seen && EndsInTwoCrs(l) && ':' !in l) then Some(l)
      else LastEvent(block[..|block| - 1], seen)
  }

  /** The event name without carriage returns. */
  function PlainName(line: Option<string>): string {
    if line.None? then "message" else Value(StripAllCrs(line.value))
  }

  /**
   * The event line that counts for TypeScript in `block` does not end in two carriage returns, and
   * names the same event as the one that counts for Go and Python in `piece`.
   */
  predicate NamedAlike(block: seq<string>, piece: seq<string>) {
    var seen := LastEvent(block, true);
    (seen.Some? ==> !EndsInTwoCrs(seen.value)) && PlainName(seen) == PlainName(LastEvent(piece, false))
  }

  lemma NameSnoc(f: string -> string, block: seq<string>)
    requires block != []
    ensures var l, init := block[|block| - 1], block[..|block| - 1];
            NameRead(f, block) == if ReadAs(f, l, "event") == [] then NameRead(f, init) else ReadAs(f, l, "event")[0]
  {
    var l, init := block[|block| - 1], block[..|block| - 1];
    assert block == init + [l] && [l] == [l] + [];
    ReadConcat(f, init, [l], "event");
    ReadCons(f, l, [], "event");
    assert Map(f, []) == [];
    hide Field, Value;
  }

  lemma {:induction false} LastEventRead(block: seq<string>)
    ensures NameRead(StripAllCrs, block) == PlainName(LastEvent(block, false))
    ensures var seen := LastEvent(block, true);
            NameRead(StripOneCr, block) == if seen.None? then "message" else Value(StripOneCr(seen.value))
    ensures var seen := LastEvent(block, true);
            seen.Some? && EndsInTwoCrs(seen.value) ==> ':' in seen.value
  {
    if block == [] {
      assert Map(StripOneCr, block) == [] && Map(StripAllCrs, block) == [];
    } else {
      var l := block[|block| - 1];
      LastEventRead(block[..|block| - 1]);
      DataLineRead(l, "event");
      if EndsInTwoCrs(l) {
        TwoCrsShow(l);
      } else {
        StripsAgree(l);
      }
      NameSnoc(StripOneCr, block);
      NameSnoc(StripAllCrs, block);
      hide NameRead, Field, Value, EndsInTwoCrs, StripOneCr, StripAllCrs;
    }
  }

  /** A value ends as its line does. */
  lemma ValueEnd(line: string)
    ensures Value(line) != "" ==> Value(line)[|Value(line)| - 1] == line[|line| - 1]
  {
    hide IndexOf;
  }

  lemma {:induction false} StrippedEnd(line: string)
    ensures StripAllCrs(line) != "" ==> StripAllCrs(line)[|StripAllCrs(line)| - 1] != '\r'
  {
    if line != "" && line[|line| - 1] == '\r' {
      StrippedEnd(line[..|line| - 1]);
    }
  }

  lemma PlainNamesEnd(line: Option<string>)
    ensures PlainName(line) != "" ==> PlainName(line)[|PlainName(line)| - 1] != '\r'
  {
    if line.Some? {
      StrippedEnd(line.value);
      ValueEnd(StripAllCrs(line.value));
      hide Value, StripAllCrs;
    }
  }

  /** A doubled carriage return in the value of a line with a colon stays visible to TypeScript. */
  lemma TwoCrsStay(line: string)
    requires EndsInTwoCrs(line) && ':' in line
    ensures Value(StripOneCr(line)) != "" && Value(StripOneCr(line))[|Value(StripOneCr(line))| - 1] == '\r'
  {
    var one := StripOneCr(line);
    assert one[|one| - 1] == '\r';
    assert ':' in one by {
      var c :| 0 <= c < |line| && line[c] == ':';
      assert one[c] == ':';
    }
    hide IndexOf;
    ValueEnd(one);
  }

  /** What TypeScript takes for the name. */
  lemma NameSeen(block: seq<string>)
    ensures var seen, name := LastEvent(block, true), NameRead(StripOneCr, block);
            if seen.Some? && EndsInTwoCrs(seen.value) then name != "" && name[|name| - 1] == '\r'
            else name == PlainName(seen)
  {
    LastEventRead(block);
    var seen := LastEvent(block, true);
    hide NameRead, LastEvent;
    if seen.Some? {
      if EndsInTwoCrs(seen.value) {
        TwoCrsStay(seen.value);
      } else {
        StripsAgree(seen.value);
      }
    }
    hide Value, EndsInTwoCrs, StripOneCr, StripAllCrs;
  }

  /** The two readings name the event alike exactly if the lines say so. */
  lemma NamesRead(block: seq<string>, piece: seq<string>)
    ensures NameRead(StripOneCr, block) == NameRead(StripAllCrs, piece) <==> NamedAlike(block, piece)
  {
    hide NameRead, LastEvent, PlainName, EndsInTwoCrs;
    NameSeen(block);
    LastEventRead(piece);
    PlainNamesEnd(LastEvent(piece, false));
  }

  // ---- joined data ----------------------------------------------------------------------------------------------

  ghost predicate Whole(parts: seq<string>) { forall x :: x in parts ==> '\n' !in x }

  lemma JoinCons(first: string, rest: seq<string>)
    requires rest != []
    ensures Join([first] + rest, "\n") == first + "\n" + Join(rest, "\n")
  {
    assert ([first] + rest)[1..] == rest;
  }

  /** Cutting joined lines gives the lines back. */
  lemma {:induction false} LinesOfJoin(parts: seq<string>)
    requires parts != [] && Whole(parts)
    ensures Lines(Join(parts, "\n")) + [Tail(Join(parts, "\n"))] == parts
  {
    assert parts[0] in parts;
    if |parts| == 1 {
      NoNewline(parts[0]);
      assert [] + [parts[0]] == parts;
    } else {
      hide Lines, Tail, Join;
      var first, rest := parts[0], parts[1..];
      assert Whole(rest) by { assert forall x :: x in rest ==> x in parts; }
      assert '\n' !in first;
      hide Whole;
      assert parts == [first] + rest;
      LinesOfJoin(rest);
      JoinCons(first, rest);
      var joined := Join(rest, "\n");
      FirstLine(first, joined);
      Reassociate([first], Lines(joined), [Tail(joined)]);
    }
  }

  lemma JoinIsInjective(a: seq<string>, b: seq<string>)
    requires a != [] && b != [] && Whole(a) && Whole(b)
    ensures Join(a, "\n") == Join(b, "\n") <==> a == b
  {
    LinesOfJoin(a);
    LinesOfJoin(b);
    hide Lines, Tail, Join;
  }

  lemma ValueIsWhole(f: string -> string, line: string)
    requires '\n' !in f(line)
    ensures '\n' !in Value(f(line))
  {
  }

  lemma {:induction false} ValuesAreWhole(f: string -> string, block: seq<string>, name: string)
    requires forall l :: l in block ==> '\n' !in f(l)
    ensures Whole(ValuesRead(f, block, name))
  {
    if block == [] {
      assert Map(f, block) == [];
    } else {
      assert block[0] in block && block == [block[0]] + block[1..];
      ValuesAreWhole(f, block[1..], name);
      ValueIsWhole(f, block[0]);
      ReadCons(f, block[0], block[1..], name);
      hide ValuesRead, Field, Value;
    }
  }

  lemma {:induction false} LinesAreWhole(t: string)
    ensures Whole(Lines(t))
    decreases |t|
  {
    var i := IndexOf(t, '\n');
    if i != -1 {
      LinesAreWhole(t[i + 1..]);
    }
  }

  lemma StrippedIsWhole(line: string)
    requires '\n' !in line
    ensures '\n' !in StripOneCr(line) && '\n' !in StripAllCrs(line)
  {
    assert forall c :: c in StripAllCrs(line) ==> c in line;
  }
}
