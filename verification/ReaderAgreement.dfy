/**
 * Where all readers agree: on which streams it makes no difference how carriage returns are stripped
 * and whether a last line without a newline is read. The condition is given on the lines of each block.
 */
module ReaderAgreement {
  import opened Options
  import opened Text
  import opened EventStream
  import opened Batches
  import opened ParserAgreement
  import opened CarriageReturns

  // ---- blocks under the two readings ------------------------------------------------------------------------

  /** Stretches between the lines that TypeScript takes for blank. */
  function RawBlocks(lines: seq<string>): (bs: seq<seq<string>>)
    ensures |bs| > 0
  {
    if lines == [] then [[]]
    else
      var bs := RawBlocks(lines[1..]);
      if StripOneCr(lines[0]) == "" then [[]] + bs else [[lines[0]] + bs[0]] + bs[1..]
  }

  /** What Go and Python make of such a block: lines of carriage returns cut it into pieces. */
  function Pieces(block: seq<string>): (ps: seq<seq<string>>)
    ensures |ps| > 0
  {
    if block == [] then [[]]
    else
      var ps := Pieces(block[1..]);
      if Blank(block[0]) then [[]] + ps else [[block[0]] + ps[0]] + ps[1..]
  }

  function AllPieces(blocks: seq<seq<string>>): seq<seq<string>> {
    if blocks == [] then [] else Pieces(blocks[0]) + AllPieces(blocks[1..])
  }

  function MapBlocks(f: string -> string, blocks: seq<seq<string>>): (r: seq<seq<string>>)
    ensures |r| == |blocks| && forall i :: 0 <= i < |blocks| ==> r[i] == Map(f, blocks[i])
  {
    seq(|blocks|, i requires 0 <= i < |blocks| => Map(f, blocks[i]))
  }

  lemma BlocksCons(line: string, rest: seq<string>)
    ensures Blocks([line] + rest)
         == if line == "" then [[]] + Blocks(rest) else [[line] + Blocks(rest)[0]] + Blocks(rest)[1..]
  {
    assert ([line] + rest)[1..] == rest;
  }

  lemma MapBlocksCons(f: string -> string, line: string, blocks: seq<seq<string>>)
    requires blocks != []
    ensures MapBlocks(f, [[line] + blocks[0]] + blocks[1..])
         == [[f(line)] + MapBlocks(f, blocks)[0]] + MapBlocks(f, blocks)[1..]
    ensures MapBlocks(f, [[]] + blocks) == [[]] + MapBlocks(f, blocks)
  {
    assert Map(f, [line] + blocks[0]) == [f(line)] + Map(f, blocks[0]);
    assert Map(f, []) == [];
  }

  lemma {:induction false} BlocksAsTypeScript(lines: seq<string>)
    ensures Blocks(Map(StripOneCr, lines)) == MapBlocks(StripOneCr, RawBlocks(lines))
  {
    hide StripOneCr;
    if lines == [] {
      assert Map(StripOneCr, lines) == [];
      assert Map(StripOneCr, []) == [];
    } else {
      var l, rest := lines[0], lines[1..];
      BlocksAsTypeScript(rest);
      assert Map(StripOneCr, lines) == [StripOneCr(l)] + Map(StripOneCr, rest);
      BlocksCons(StripOneCr(l), Map(StripOneCr, rest));
      MapBlocksCons(StripOneCr, l, RawBlocks(rest));
      hide Blocks, MapBlocks;
    }
  }

  lemma PiecesCons(line: string, blocks: seq<seq<string>>)
    requires blocks != []
    ensures AllPieces([[]] + blocks) == [[]] + AllPieces(blocks)
    ensures AllPieces([[line] + blocks[0]] + blocks[1..])
         == if Blank(line) then [[]] + AllPieces(blocks)
            else [[line] + AllPieces(blocks)[0]] + AllPieces(blocks)[1..]
  {
    hide Blank;
    assert ([[]] + blocks)[1..] == blocks;
    assert Pieces([]) == [[]];
    var bs := [[line] + blocks[0]] + blocks[1..];
    assert bs[1..] == blocks[1..] && bs[0] == [line] + blocks[0];
    assert ([line] + blocks[0])[1..] == blocks[0];
    var ps, rest := Pieces(blocks[0]), AllPieces(blocks[1..]);
    assert AllPieces(blocks) == ps + rest;
    hide Pieces, AllPieces;
    assert ([[]] + ps) + rest == [[]] + (ps + rest);
    assert ([[line] + ps[0]] + ps[1..]) + rest == [[line] + (ps + rest)[0]] + (ps + rest)[1..];
  }

  /** What Go and Python read at the end of the stream, after its last newline. */
  function Rest(t: string): seq<string> { if Tail(t) == "" then [] else [Tail(t)] }

  /** The blocks with lines added to the last one. */
  function Extended(blocks: seq<seq<string>>, rest: seq<string>): (r: seq<seq<string>>)
    requires blocks != []
    ensures |r| == |blocks|
  {
    blocks[..|blocks| - 1] + [blocks[|blocks| - 1] + rest]
  }

  lemma ExtendedCons(line: string, blocks: seq<seq<string>>, rest: seq<string>)
    requires blocks != []
    ensures Extended([[]] + blocks, rest) == [[]] + Extended(blocks, rest)
    ensures Extended([[line] + blocks[0]] + blocks[1..], rest)
         == [[line] + Extended(blocks, rest)[0]] + Extended(blocks, rest)[1..]
  {
    if |blocks| == 1 {
      assert ([line] + blocks[0]) + rest == [line] + (blocks[0] + rest);
    }
  }

  lemma {:induction false} BlocksArePieces(lines: seq<string>)
    ensures Blocks(Map(StripAllCrs, lines)) == MapBlocks(StripAllCrs, Pieces(lines))
  {
    if lines == [] {
      assert Map(StripAllCrs, lines) == [] && Map(StripAllCrs, []) == [];
    } else {
      var l, rest := lines[0], lines[1..];
      BlocksArePieces(rest);
      assert Map(StripAllCrs, lines) == [StripAllCrs(l)] + Map(StripAllCrs, rest);
      BlocksCons(StripAllCrs(l), Map(StripAllCrs, rest));
      MapBlocksCons(StripAllCrs, l, Pieces(rest));
      hide Blocks, MapBlocks, StripAllCrs;
    }
  }

  lemma PiecesStep(line: string, rest: seq<string>)
    ensures Pieces([line] + rest)
         == if Blank(line) then [[]] + Pieces(rest) else [[line] + Pieces(rest)[0]] + Pieces(rest)[1..]
  {
    hide Blank;
    assert ([line] + rest)[1..] == rest;
  }

  lemma RawBlocksStep(line: string, rest: seq<string>)
    ensures RawBlocks([line] + rest)
         == if StripOneCr(line) == "" then [[]] + RawBlocks(rest)
            else [[line] + RawBlocks(rest)[0]] + RawBlocks(rest)[1..]
  {
    hide StripOneCr;
    assert ([line] + rest)[1..] == rest;
  }

  lemma OneBlock(block: seq<string>)
    ensures AllPieces([block]) == Pieces(block)
  {
    hide Pieces;
    assert [block][1..] == [] && Pieces(block) + [] == Pieces(block);
  }

  lemma {:induction false} PiecesOfBlocks(lines: seq<string>, rest: seq<string>)
    ensures Pieces(lines + rest) == AllPieces(Extended(RawBlocks(lines), rest))
  {
    if lines == [] {
      OneBlock(rest);
      hide AllPieces, Pieces;
      assert lines + rest == rest && Extended([[]], rest) == [rest];
    } else {
      hide AllPieces, StripOneCr, Blank, Extended, Pieces, RawBlocks;
      var l, ls := lines[0], lines[1..];
      PiecesOfBlocks(ls, rest);
      assert lines == [l] + ls && lines + rest == [l] + (ls + rest);
      PiecesStep(l, ls + rest);
      RawBlocksStep(l, ls);
      ExtendedCons(l, RawBlocks(ls), rest);
      PiecesCons(l, Extended(RawBlocks(ls), rest));
      if StripOneCr(l) == "" {
        BlankForAll(l);
      }
    }
  }

  lemma BlankForAll(line: string)
    requires StripOneCr(line) == ""
    ensures Blank(line)
  {
  }

  // ---- where the readings agree -------------------------------------------------------------------------------------

  function WithData(pieces: seq<seq<string>>): seq<seq<string>> {
    if pieces == [] then []
    else (if HasData(pieces[0]) then [pieces[0]] else []) + WithData(pieces[1..])
  }

  /**
   * At most one piece of the block holds data, and not in the line after the last newline; its data
   * lines do not end in two carriage returns, and the event is named alike in the piece and in the block.
   */
  predicate Agrees(block: seq<string>, rest: seq<string>) {
    var ds := WithData(Pieces(block + rest));
    ds == [] || (|ds| == 1 && !HasData(rest) && CleanData(ds[0]) && NamedAlike(block, ds[0]))
  }

  function FlatData(pieces: seq<seq<string>>): seq<string> {
    if pieces == [] then [] else ValuesRead(StripOneCr, pieces[0], "data") + FlatData(pieces[1..])
  }

  lemma FlatFirst(p: seq<string>, ps: seq<seq<string>>)
    ensures FlatData([p] + ps) == ValuesRead(StripOneCr, p, "data") + FlatData(ps)
  {
    assert ([p] + ps)[1..] == ps;
  }

  lemma {:induction false} FlatCons(line: string, ps: seq<seq<string>>)
    requires ps != []
    ensures FlatData([[]] + ps) == FlatData(ps)
    ensures FlatData([[line] + ps[0]] + ps[1..]) == ReadAs(StripOneCr, line, "data") + FlatData(ps)
  {
    ReadNothing();
    hide ValuesRead, ReadAs, FlatData;
    FlatFirst([], ps);
    assert ps == [ps[0]] + ps[1..];
    FlatFirst(ps[0], ps[1..]);
    FlatFirst([line] + ps[0], ps[1..]);
    ReadCons(StripOneCr, line, ps[0], "data");
    Reassociate(ReadAs(StripOneCr, line, "data"), ValuesRead(StripOneCr, ps[0], "data"), FlatData(ps[1..]));
  }

  lemma ReadNothing()
    ensures ValuesRead(StripOneCr, [], "data") == []
  {
    assert Map(StripOneCr, []) == [];
  }

  /** The data of a block are those of its pieces. */
  lemma {:induction false} DataOfPieces(block: seq<string>)
    ensures ValuesRead(StripOneCr, block, "data") == FlatData(Pieces(block))
  {
    hide Field, Value;
    if block == [] {
      assert FlatData([[]]) == ValuesRead(StripOneCr, [], "data") + FlatData([[]][1..]);
    } else {
      hide ValuesRead, FlatData, Blank, ReadAs;
      var l, rest := block[0], block[1..];
      DataOfPieces(rest);
      assert block == [l] + rest;
      ReadCons(StripOneCr, l, rest, "data");
      FlatCons(l, Pieces(rest));
      if Blank(l) {
        BlankHoldsNothing(l);
      }
    }
  }

  lemma BlankHoldsNothing(line: string)
    requires Blank(line)
    ensures ReadAs(StripOneCr, line, "data") == []
  {
    DataLineRead(line, "data");
  }

  lemma {:induction false} FlatDataOf(pieces: seq<seq<string>>)
    ensures var ds := WithData(pieces);
            && (ds == [] ==> FlatData(pieces) == [])
            && (|ds| == 1 ==> FlatData(pieces) == ValuesRead(StripOneCr, ds[0], "data"))
  {
    if pieces != [] {
      FlatDataOf(pieces[1..]);
      DataRead(pieces[0]);
      hide ValuesRead, HasData, CleanData;
    }
  }

  lemma FramesOfReadBlock(f: string -> string, block: seq<string>)
    ensures var frames, data := FramesOfBlock(Map(f, block)), ValuesRead(f, block, "data");
            if data == [] then frames == []
            else |frames| == 1 && frames[0].event == NameRead(f, block) && frames[0].data == Join(data, "\n")
  {
  }

  lemma {:induction false} FramesOfPieces(pieces: seq<seq<string>>)
    ensures var frames, ds := FramesOfBlocks(MapBlocks(StripAllCrs, pieces)), WithData(pieces);
            |frames| == |ds| && (|ds| == 1 ==> frames == FramesOfBlock(Map(StripAllCrs, ds[0])))
  {
    if pieces == [] {
      assert MapBlocks(StripAllCrs, pieces) == [];
    } else {
      FramesOfPieces(pieces[1..]);
      assert MapBlocks(StripAllCrs, pieces)[1..] == MapBlocks(StripAllCrs, pieces[1..]);
      DataRead(pieces[0]);
      FramesOfReadBlock(StripAllCrs, pieces[0]);
      hide ValuesRead, HasData, CleanData, FramesOfBlock, NameRead, MapBlocks;
    }
  }

  lemma {:induction false} PiecesArePart(block: seq<string>)
    ensures forall p, l :: p in Pieces(block) && l in p ==> l in block
  {
    if block != [] {
      PiecesArePart(block[1..]);
      var ps := Pieces(block[1..]);
      assert forall l :: l in ps[0] ==> ps[0] in ps && l in block[1..];
      hide Blank;
    }
  }

  lemma {:induction false} DataPiecesArePieces(pieces: seq<seq<string>>)
    ensures forall p :: p in WithData(pieces) ==> p in pieces && HasData(p)
  {
    if pieces != [] {
      DataPiecesArePieces(pieces[1..]);
      hide HasData;
    }
  }

  /** One frame against at most one frame. */
  lemma CompareFrames(
    one: seq<Frame>, all: seq<Frame>, a: seq<string>, b: seq<string>, name: string, name': string)
    requires b != [] && Whole(a) && Whole(b)
    requires if a == [] then one == [] else |one| == 1 && one[0].event == name && one[0].data == Join(a, "\n")
    requires |all| == 1 && all[0].event == name' && all[0].data == Join(b, "\n")
    ensures SameIgnoringId(one, all) <==> a == b && name == name'
  {
    if a != [] {
      JoinIsInjective(a, b);
    }
    hide Join, Whole;
  }

  /** A data line after the last newline is in the last piece. */
  lemma {:induction false} RestInPiece(block: seq<string>, l: string)
    requires IsData(l)
    ensures var ps := Pieces(block + [l]); l in ps[|ps| - 1]
  {
    assert !Blank(l);
    hide IsData, Blank;
    if block == [] {
      assert Pieces([]) == [[]];
      hide Pieces;
      assert block + [l] == [l] + [];
      PiecesStep(l, []);
    } else {
      hide Pieces;
      RestInPiece(block[1..], l);
      assert block + [l] == [block[0]] + (block[1..] + [l]);
      PiecesStep(block[0], block[1..] + [l]);
      LastOfMore(Pieces(block[1..] + [l]), Pieces(block + [l]), block[0], l);
    }
  }

  lemma LastOfMore(ps: seq<seq<string>>, qs: seq<seq<string>>, line: string, l: string)
    requires ps != [] && l in ps[|ps| - 1]
    requires qs == [[]] + ps || qs == [[line] + ps[0]] + ps[1..]
    ensures qs != [] && l in qs[|qs| - 1]
  {
    if qs == [[]] + ps {
      assert qs[|qs| - 1] == ps[|ps| - 1];
    } else if |ps| == 1 {
      assert qs[0] == [line] + ps[0];
    } else {
      assert qs[|qs| - 1] == ps[|ps| - 1];
    }
  }

  lemma {:induction false} PiecesWithDataAreKept(pieces: seq<seq<string>>, p: seq<string>)
    requires p in pieces && HasData(p)
    ensures p in WithData(pieces)
  {
    hide HasData;
    if pieces[0] != p {
      assert p in pieces[1..];
      PiecesWithDataAreKept(pieces[1..], p);
    }
  }

  /** If a single piece holds data, TypeScript finds the same data exactly under the first three conditions. */
  lemma DataOfOnePiece(block: seq<string>, rest: seq<string>, d: seq<string>)
    requires |rest| <= 1 && WithData(Pieces(block + rest)) == [d]
    ensures ValuesRead(StripOneCr, block, "data") == ValuesRead(StripAllCrs, d, "data") <==>
              !HasData(rest) && CleanData(d)
  {
    hide ValuesRead, WithData, FlatData, Pieces, CleanData, HasData;
    DataOfPieces(block + rest);
    FlatDataOf(Pieces(block + rest));
    ReadConcat(StripOneCr, block, rest, "data");
    DataRead(d);
    if HasData(rest) {
      var l := DataInRest(block, rest, d);
      assert rest == [l];
      RestUnread(block, l, d);
    } else {
      DataRead(rest);
    }
  }

  lemma DataInRest(block: seq<string>, rest: seq<string>, d: seq<string>) returns (l: string)
    requires |rest| <= 1 && WithData(Pieces(block + rest)) == [d] && HasData(rest)
    ensures rest == [l] && IsData(l) && l in d
  {
    hide WithData, Pieces, IsData;
    l := rest[0];
    assert rest == [l] && IsData(l);
    RestInPiece(block, l);
    var ps := Pieces(block + rest);
    assert HasData(ps[|ps| - 1]);
    PiecesWithDataAreKept(ps, ps[|ps| - 1]);
  }

  /** A data line that TypeScript does not read, or that ends in two carriage returns, tells. */
  lemma RestUnread(block: seq<string>, l: string, d: seq<string>)
    requires IsData(l) && l in d
    requires ValuesRead(StripOneCr, d, "data")
          == ValuesRead(StripOneCr, block, "data") + ValuesRead(StripOneCr, [l], "data")
    ensures ValuesRead(StripOneCr, block, "data") != ValuesRead(StripAllCrs, d, "data")
  {
    DataRead(d);
    DataRead([l]);
    hide ValuesRead, EndsInTwoCrs;
    if EndsInTwoCrs(l) {
      assert !CleanData(d);
      assert ValuesRead(StripOneCr, [l], "data") == [] ==>
          ValuesRead(StripOneCr, block, "data") == ValuesRead(StripOneCr, d, "data");
    } else {
      assert CleanData([l]) && HasData([l]) by { assert l in [l]; }
    }
  }

  lemma OneDataPiece(block: seq<string>, rest: seq<string>, d: seq<string>)
    requires Whole(block + rest) && |rest| <= 1 && WithData(Pieces(block + rest)) == [d]
    ensures SameIgnoringId(FramesOfBlock(Map(StripOneCr, block)), FramesOfBlock(Map(StripAllCrs, d))) <==>
              !HasData(rest) && CleanData(d) && NamedAlike(block, d)
  {
    var ps := Pieces(block + rest);
    DataOfOnePiece(block, rest, d);
    FramesOfReadBlock(StripOneCr, block);
    FramesOfReadBlock(StripAllCrs, d);
    assert d in WithData(ps);
    DataPiecesArePieces(ps);
    PiecesArePart(block + rest);
    assert Whole(d) && Whole(block) by { assert forall l :: l in block ==> l in block + rest; }
    hide ValuesRead, HasData, CleanData, FramesOfBlock, NameRead, Pieces, WithData, SameIgnoringId, Whole, NamedAlike;
    DataRead(d);
    WholeRead(d);
    WholeRead(block);
    NamesRead(block, d);
    CompareFrames(FramesOfBlock(Map(StripOneCr, block)), FramesOfBlock(Map(StripAllCrs, d)),
                  ValuesRead(StripOneCr, block, "data"), ValuesRead(StripAllCrs, d, "data"),
                  NameRead(StripOneCr, block), NameRead(StripAllCrs, d));
  }

  /** The frames of one block, under the two readings. */
  lemma BlockAgrees(block: seq<string>, rest: seq<string>)
    requires Whole(block + rest) && |rest| <= 1
    ensures var one := FramesOfBlock(Map(StripOneCr, block));
            var all := FramesOfBlocks(MapBlocks(StripAllCrs, Pieces(block + rest)));
            |one| <= |all| && (SameIgnoringId(one, all) <==> Agrees(block, rest))
  {
    var ps := Pieces(block + rest);
    var ds := WithData(ps);
    hide ValuesRead, HasData, CleanData, FramesOfBlocks, NameRead, Pieces, WithData, FlatData, MapBlocks,
      Whole, NamedAlike;
    DataOfPieces(block + rest);
    FlatDataOf(ps);
    ReadConcat(StripOneCr, block, rest, "data");
    FramesOfPieces(ps);
    FramesOfReadBlock(StripOneCr, block);
    hide FramesOfBlock;
    if |ds| == 1 {
      assert ds == [ds[0]];
      OneDataPiece(block, rest, ds[0]);
    }
  }

  lemma WholeRead(block: seq<string>)
    requires Whole(block)
    ensures Whole(ValuesRead(StripOneCr, block, "data")) && Whole(ValuesRead(StripAllCrs, block, "data"))
  {
    forall l | l in block ensures '\n' !in StripOneCr(l) && '\n' !in StripAllCrs(l) {
      StrippedIsWhole(l);
    }
    ValuesAreWhole(StripOneCr, block, "data");
    ValuesAreWhole(StripAllCrs, block, "data");
  }

  lemma {:induction false} FramesOfBlocksConcat(a: seq<seq<string>>, b: seq<seq<string>>)
    ensures FramesOfBlocks(a + b) == FramesOfBlocks(a) + FramesOfBlocks(b)
  {
    hide FramesOfBlock;
    if a == [] {
      assert a + b == b;
    } else {
      assert (a + b)[1..] == a[1..] + b;
      FramesOfBlocksConcat(a[1..], b);
    }
  }

  lemma SameParts(a: seq<Frame>, a': seq<Frame>, b: seq<Frame>, b': seq<Frame>)
    requires |a| <= |a'| && |b| <= |b'|
    ensures SameIgnoringId(a + b, a' + b') <==> SameIgnoringId(a, a') && SameIgnoringId(b, b')
  {
    if SameIgnoringId(a + b, a' + b') {
      assert |a| == |a'| && |b| == |b'|;
      forall i | 0 <= i < |a| ensures a[i].event == a'[i].event && a[i].data == a'[i].data {
        assert (a + b)[i] == a[i] && (a' + b')[i] == a'[i];
      }
      forall i | 0 <= i < |b| ensures b[i].event == b'[i].event && b[i].data == b'[i].data {
        assert (a + b)[|a| + i] == b[i] && (a' + b')[|a| + i] == b'[i];
      }
    }
  }

  lemma MapBlocksConcat(f: string -> string, a: seq<seq<string>>, b: seq<seq<string>>)
    ensures MapBlocks(f, a + b) == MapBlocks(f, a) + MapBlocks(f, b)
  {
  }

  lemma FirstBlock(block: seq<string>, rest: seq<seq<string>>)
    ensures FramesOfBlocks(MapBlocks(StripOneCr, [block] + rest))
         == FramesOfBlock(Map(StripOneCr, block)) + FramesOfBlocks(MapBlocks(StripOneCr, rest))
    ensures FramesOfBlocks(MapBlocks(StripAllCrs, AllPieces([block] + rest)))
         == FramesOfBlocks(MapBlocks(StripAllCrs, Pieces(block)))
            + FramesOfBlocks(MapBlocks(StripAllCrs, AllPieces(rest)))
  {
    hide FramesOfBlock, Pieces;
    assert ([block] + rest)[1..] == rest;
    assert MapBlocks(StripOneCr, [block] + rest)[1..] == MapBlocks(StripOneCr, rest);
    MapBlocksConcat(StripAllCrs, Pieces(block), AllPieces(rest));
    FramesOfBlocksConcat(MapBlocks(StripAllCrs, Pieces(block)), MapBlocks(StripAllCrs, AllPieces(rest)));
  }

  /** The readings agree on every block; after the last newline Go and Python may read one more line. */
  ghost predicate AllAgree(blocks: seq<seq<string>>, rest: seq<string>)
    requires blocks != []
  {
    && (forall i :: 0 <= i < |blocks| - 1 ==> Agrees(blocks[i], []))
    && Agrees(blocks[|blocks| - 1], rest)
  }

  lemma AllAgreeCons(block: seq<string>, blocks: seq<seq<string>>, rest: seq<string>)
    requires blocks != []
    ensures AllAgree([block] + blocks, rest) <==> Agrees(block, []) && AllAgree(blocks, rest)
    ensures Extended([block] + blocks, rest) == [block] + Extended(blocks, rest)
  {
    hide Agrees;
    var bs := [block] + blocks;
    if AllAgree(bs, rest) {
      assert Agrees(bs[0], []);
      forall i | 0 <= i < |blocks| - 1 ensures Agrees(blocks[i], []) {
        assert bs[i + 1] == blocks[i];
      }
    }
  }

  lemma {:induction false} BlocksAgree(blocks: seq<seq<string>>, rest: seq<string>)
    requires blocks != [] && |rest| <= 1
    requires forall b :: b in blocks ==> Whole(b + rest)
    ensures var one := FramesOfBlocks(MapBlocks(StripOneCr, blocks));
            var all := FramesOfBlocks(MapBlocks(StripAllCrs, AllPieces(Extended(blocks, rest))));
            |one| <= |all| && (SameIgnoringId(one, all) <==> AllAgree(blocks, rest))
  {
    hide Agrees, Pieces, SameIgnoringId, FramesOfBlock;
    var b, bs := blocks[0], blocks[1..];
    assert b in blocks && blocks == [b] + bs;
    if bs == [] {
      BlockAgrees(b, rest);
      LastBlock(b, rest);
    } else {
      hide FramesOfBlocks, MapBlocks, AllPieces, AllAgree, Extended;
      BlocksAgree(bs, rest);
      assert b + [] == b && Whole(b + []) by { assert forall l :: l in b ==> l in b + rest; }
      hide Whole;
      BlockAgrees(b, []);
      AllAgreeCons(b, bs, rest);
      var others := Extended(bs, rest);
      FirstBlock(b, bs);
      FirstBlock(b, others);
      SameParts(FramesOfBlock(Map(StripOneCr, b)), FramesOfBlocks(MapBlocks(StripAllCrs, Pieces(b))),
                FramesOfBlocks(MapBlocks(StripOneCr, bs)), FramesOfBlocks(MapBlocks(StripAllCrs, AllPieces(others))));
    }
  }

  lemma LastBlock(b: seq<string>, rest: seq<string>)
    ensures FramesOfBlocks(MapBlocks(StripOneCr, [b])) == FramesOfBlock(Map(StripOneCr, b))
    ensures AllPieces(Extended([b], rest)) == Pieces(b + rest)
  {
    hide FramesOfBlock, Pieces;
    assert MapBlocks(StripOneCr, [b]) == [Map(StripOneCr, b)];
    assert [Map(StripOneCr, b)][1..] == [];
    assert FramesOfBlocks([]) == [];
    assert Extended([b], rest) == [b + rest];
    assert AllPieces([b + rest]) == Pieces(b + rest) + AllPieces([b + rest][1..]);
  }

  lemma {:induction false} BlocksArePart(lines: seq<string>)
    ensures forall b, l :: b in RawBlocks(lines) && l in b ==> l in lines
  {
    if lines != [] {
      BlocksArePart(lines[1..]);
      var bs := RawBlocks(lines[1..]);
      assert forall l :: l in bs[0] ==> bs[0] in bs && l in lines[1..];
      hide StripOneCr;
    }
  }

  lemma TailIsWhole(t: string)
    ensures '\n' !in Tail(t)
    decreases |t|
  {
    var i := IndexOf(t, '\n');
    if i != -1 {
      TailIsWhole(t[i + 1..]);
    }
  }

  /**
   * The exact condition, for every stream: the TypeScript readers and the Go and Python readers
   * dispatch the same events if and only if they agree on every block of lines.
   */
  lemma ReadersAgreeExactly(t: string)
    ensures SameIgnoringId(ParseTerminated(t), ParseAllLines(t)) <==> AllAgree(RawBlocks(Lines(t)), Rest(t))
  {
    var lines, rest := Lines(t), Rest(t);
    LinesAreWhole(t);
    TailIsWhole(t);
    BlocksArePart(lines);
    ParseIsBlockwise(t);
    assert AllLines(t) == lines + rest;
    hide Lines, Tail, AllAgree, ParseTerminated, ParseAllLines, SameIgnoringId, RawBlocks, AllPieces, Extended;
    BlocksAsTypeScript(lines);
    BlocksArePieces(lines + rest);
    PiecesOfBlocks(lines, rest);
    BlocksAgree(RawBlocks(lines), rest);
  }

  lemma {:induction false} OnePiece(block: seq<string>)
    requires forall l :: l in block ==> !Blank(l)
    ensures Pieces(block) == [block]
  {
    if block != [] {
      assert block[0] in block;
      OnePiece(block[1..]);
      hide Blank;
      assert block == [block[0]] + block[1..];
    }
  }

  /**
   * Spelled out for a block that Go and Python do not cut: if it has data, no data line may end in two
   * carriage returns or lack its newline, and the event lines that count must name the same event.
   */
  lemma UncutBlockAgrees(block: seq<string>, rest: seq<string>)
    requires forall l :: l in block + rest ==> !Blank(l)
    ensures Agrees(block, rest) <==>
              (HasData(block + rest) ==> !HasData(rest) && CleanData(block) && NamedAlike(block, block + rest))
  {
    var whole := block + rest;
    OnePiece(whole);
    assert [whole][1..] == [];
    assert WithData([whole]) == if HasData(whole) then [whole] else [];
    hide NamedAlike, Pieces, Blank, EndsInTwoCrs, IsData;
    assert !HasData(rest) ==> (CleanData(whole) <==> CleanData(block));
  }

  /** Without a colon it does not matter how the last event line ends, if the one before names the empty event. */
  lemma BareEventLine()
    ensures var b := ["data: x", "event:", "event\r\r"];
            IsEvent(b[2]) && EndsInTwoCrs(b[2]) && NamedAlike(b, b)
  {
    var b := ["data: x", "event:", "event\r\r"];
    BareEvent();
    NamelessEvent();
    hide Field, Value, StripAllCrs;
    assert LastEvent(b, false) == Some(b[2]);
    assert b[..2][1] == "event:" && !EndsInTwoCrs("event:");
    assert LastEvent(b[..2], true) == Some("event:");
  }

  lemma BareEvent()
    ensures Field(StripAllCrs("event\r\r")) == "event" && Value(StripAllCrs("event\r\r")) == ""
  {
    var l := "event\r\r";
    assert l[..6] == "event\r" && l[..6][..5] == "event";
    assert StripAllCrs("event") == "event";
    assert StripAllCrs(l[..6]) == "event";
    assert StripAllCrs(l) == "event";
  }

  lemma NamelessEvent()
    ensures Field(StripAllCrs("event:")) == "event" && Value(StripAllCrs("event:")) == ""
  {
    assert StripAllCrs("event:") == "event:";
    IndexOfUnique("event:", ':', 5);
    assert "event:"[..5] == "event" && "event:"[6..] == "";
  }
}
