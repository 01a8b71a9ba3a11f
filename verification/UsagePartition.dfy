/**
 The split of a well-formed usage file: the stable partition of its blocks by licence owner,
 the rows it maps, and the round trip through the rebuilt SPIRE file.
 */
module UsagePartition {
  import opened Text
  import opened UsageSplit
  import opened UsageFiles

  function Licence(b: UsageBlock): string
    requires HeadOk(b.head)
  {
    b.head[3]
  }

  function Transaction(b: UsageBlock): string
    requires HeadOk(b.head)
  {
    b.head[1]
  }

  predicate BlocksOk(blocks: seq<UsageBlock>) {
    forall k :: 0 <= k < |blocks| ==> BlockOk(blocks[k])
  }

  predicate IsLite(b: UsageBlock, liteLicences: set<string>)
    requires HeadOk(b.head)
  {
    Licence(b) in liteLicences
  }

  /** The blocks of one side, in file order. */
  function Side(blocks: seq<UsageBlock>, liteLicences: set<string>, lite: bool): (r: seq<UsageBlock>)
    requires BlocksOk(blocks)
    ensures BlocksOk(r)
  {
    if blocks == [] then []
    else
      var rest := Side(blocks[1..], liteLicences, lite);
      if IsLite(blocks[0], liteLicences) == lite then [blocks[0]] + rest else rest
  }

  // ---------------------------------------------------------------- the rows a file maps

  function GoodsRow(r: Fields, usage: nat, licence: string, transaction: string): TransactionRow
    requires GoodsOk(r)
  {
    TransactionRow(Some(ParseInt(r[1]).value), usage, licence, transaction)
  }

  predicate DetailsOk(details: seq<Fields>) {
    forall k :: 0 <= k < |details| ==> DetailOk(details[k])
  }

  /** One row per goods line. */
  function GoodsRows(details: seq<Fields>, usage: nat, licence: string, transaction: string): set<TransactionRow>
    requires DetailsOk(details)
  {
    if details == [] then {}
    else
      (if details[0][0] == LINE then {GoodsRow(details[0], usage, licence, transaction)} else {})
      + GoodsRows(details[1..], usage, licence, transaction)
  }

  /** A LITE block's goods rows, and a row without line number if the transaction has none. */
  function BlockRows(b: UsageBlock, usage: nat, rows: set<TransactionRow>): set<TransactionRow>
    requires BlockOk(b)
  {
    var withGoods := rows + GoodsRows(b.details, usage, Licence(b), Transaction(b));
    if Mapped(withGoods, Transaction(b)) then withGoods
    else withGoods + {TransactionRow(None, usage, Licence(b), Transaction(b))}
  }

  function FileRows(blocks: seq<UsageBlock>, liteLicences: set<string>, usage: Option<nat>, rows: set<TransactionRow>): set<TransactionRow>
    requires BlocksOk(blocks)
  {
    if blocks == [] then rows
    else
      var next := if usage.Some? && IsLite(blocks[0], liteLicences) then BlockRows(blocks[0], usage.value, rows) else rows;
      FileRows(blocks[1..], liteLicences, usage, next)
  }

  // ---------------------------------------------------------------- one block

  lemma EndMarkHasBothWords(line: string)
    ensures Contains(line, END_LICENCE_USAGE) ==> Contains(line, LICENCE_USAGE) && Contains(line, END)
  {
    assert END_LICENCE_USAGE == "end\\" + LICENCE_USAGE && "end\\" == END + [FIELD_SEP];
    if Contains(line, END_LICENCE_USAGE) {
      ContainsParts(line, "end\\", LICENCE_USAGE);
      ContainsParts(line, END, [FIELD_SEP]);
    }
  }

  /** The first field of a joined record, and what follows it. */
  lemma BodyStart(r: Fields) returns (after: string)
    requires |r| >= 1
    ensures Body(r) == r[0] + after
  {
    if |r| == 1 {
      after := "";
      assert r[0] + "" == r[0];
    } else {
      after := [FIELD_SEP] + Body(r[1..]);
      Assoc(r[0], [FIELD_SEP], Body(r[1..]));
    }
  }

  lemma TailHasEndMark(n: nat, r: Fields)
    requires TailOk(r)
    ensures Contains(NumberedLine(n, Body(r)), END_LICENCE_USAGE)
  {
    var after := BodyStart(r[1..]);
    var front := END + [FIELD_SEP];
    assert front + LICENCE_USAGE == END_LICENCE_USAGE;
    Assoc(front, LICENCE_USAGE, after);
    assert Body(r) == END_LICENCE_USAGE + after;
    ContainsMiddle(Decimal(n) + [FIELD_SEP], END_LICENCE_USAGE, after);
  }

  function Entered(b: UsageBlock, liteLicences: set<string>, s: SplitState): SplitState
    requires HeadOk(b.head)
  {
    s.(owner := OwnerOf(Licence(b), liteLicences), licence := Licence(b), transaction := Transaction(b))
  }

  lemma StepHead(n: nat, b: UsageBlock, pad: string, liteLicences: set<string>, usage: Option<nat>, s: SplitState)
    requires HeadOk(b.head) && PadOk(pad)
    ensures Step(NumberedLine(n, Body(b.head)) + pad, liteLicences, usage, s) ==
            Reading(Entered(b, liteLicences, s).(block := s.block + [Body(b.head)]))
  {
    LineShape(n, b.head, pad);
    SubstringTestsAgree(n, b.head);
    var line := NumberedLine(n, Body(b.head));
    WordsArePlain();
    WordInLine(n, b.head, FILE_HEADER);
    EndMarkHasBothWords(line);
  }

  /** What the loop finds in the line of a record inside a licence. */
  lemma DetailLine(n: nat, r: Fields, pad: string)
    requires DetailOk(r) && PadOk(pad)
    ensures var line := NumberedLine(n, Body(r));
            && Strip(line + pad) == line && AfterFirst(line, FIELD_SEP) == Some(Body(r)) && Split(Body(r), FIELD_SEP) == r
            && !Contains(line, LICENCE_USAGE) && !Contains(line, END_LICENCE_USAGE)
            && !Contains(line, FILE_HEADER) && !Contains(line, FILE_TRAILER)
            && (IsGoodsLine(Body(r)) <==> r[0] == LINE)
  {
    LineShape(n, r, pad);
    SubstringTestsAgree(n, r);
    WordsArePlain();
    WordInLine(n, r, FILE_HEADER);
    WordInLine(n, r, FILE_TRAILER);
    WordInLine(n, r, LICENCE_USAGE);
    EndMarkHasBothWords(NumberedLine(n, Body(r)));
    HasOwnType(r);
    hide Contains, Strip, AfterFirst, Split, Decimal, ParseInt, SomeContains;
    assert !HeaderOk(r);
  }

  lemma StepDetail(n: nat, r: Fields, pad: string, liteLicences: set<string>, usage: Option<nat>, s: SplitState)
    requires DetailOk(r) && PadOk(pad)
    ensures Step(NumberedLine(n, Body(r)) + pad, liteLicences, usage, s) ==
            Reading(AfterDetail(r, usage, s))
  {
    hide Contains, Strip, AfterFirst, Split, NumberedLine, Body, IsGoodsLine, SomeContains, AllFree, Solid, ParseInt, Mapped;
    DetailLine(n, r, pad);
    assert r[0] == LINE ==> GoodsOk(r);
  }

  lemma StepTail(n: nat, r: Fields, pad: string, liteLicences: set<string>, usage: Option<nat>, s: SplitState)
    requires TailOk(r) && PadOk(pad)
    ensures var block := s.block + [Body(r)];
            var rows := if usage.Some? && s.owner == Lite && !Mapped(s.rows, s.transaction)
                        then s.rows + {TransactionRow(None, usage.value, s.licence, s.transaction)} else s.rows;
            Step(NumberedLine(n, Body(r)) + pad, liteLicences, usage, s) ==
            Reading(if s.owner == Spire then s.(spire := s.spire + [block], block := [], rows := rows)
                    else s.(lite := s.lite + [block], block := [], rows := rows))
  {
    LineShape(n, r, pad);
    SubstringTestsAgree(n, r);
    var line := NumberedLine(n, Body(r));
    WordsArePlain();
    WordInLine(n, r, FILE_HEADER);
    WordInLine(n, r, LICENCE_USAGE);
    WordInLine(n, r, END);
    HasOwnType(r);
    TailHasEndMark(n, r);
  }

  function AfterDetail(r: Fields, usage: Option<nat>, s: SplitState): SplitState
    requires DetailOk(r)
  {
    s.(block := s.block + [Body(r)],
       rows := if usage.Some? && s.owner == Lite && r[0] == LINE
               then s.rows + {GoodsRow(r, usage.value, s.licence, s.transaction)} else s.rows)
  }

  function AfterDetails(details: seq<Fields>, usage: Option<nat>, s: SplitState): SplitState
    requires DetailsOk(details)
  {
    if details == [] then s else AfterDetails(details[1..], usage, AfterDetail(details[0], usage, s))
  }

  lemma {:induction false} RunDetails(details: seq<Fields>, n: nat, pad: string, liteLicences: set<string>, usage: Option<nat>, s: SplitState)
    requires DetailsOk(details) && PadOk(pad)
    ensures Run(NumberedLines(Bodies(details), n, pad), liteLicences, usage, s) == Reading(AfterDetails(details, usage, s))
  {
    if details != [] {
      StepDetail(n, details[0], pad, liteLicences, usage, s);
      var lines := NumberedLines(Bodies(details), n, pad);
      assert lines[1..] == NumberedLines(Bodies(details[1..]), n + 1, pad);
      RunDetails(details[1..], n + 1, pad, liteLicences, usage, AfterDetail(details[0], usage, s));
    }
  }

  lemma {:induction false} AfterDetailsTotal(details: seq<Fields>, usage: Option<nat>, s: SplitState)
    requires DetailsOk(details)
    ensures AfterDetails(details, usage, s) ==
            s.(block := s.block + Bodies(details),
               rows := if usage.Some? && s.owner == Lite
                       then s.rows + GoodsRows(details, usage.value, s.licence, s.transaction) else s.rows)
  {
    hide DetailOk, Body;
    if details == [] {
      assert s.block + [] == s.block;
      assert s.rows + {} == s.rows;
    } else {
      var s' := AfterDetail(details[0], usage, s);
      AfterDetailsTotal(details[1..], usage, s');
      Assoc(s.block, [Body(details[0])], Bodies(details[1..]));
      if usage.Some? && s.owner == Lite {
        GoodsRowsPush(details, usage.value, s.licence, s.transaction, s.rows);
      }
    }
  }

  lemma GoodsRowsPush(details: seq<Fields>, usage: nat, licence: string, transaction: string, rows: set<TransactionRow>)
    requires details != [] && DetailsOk(details)
    ensures rows + GoodsRows(details, usage, licence, transaction) ==
            (if details[0][0] == LINE then rows + {GoodsRow(details[0], usage, licence, transaction)} else rows)
            + GoodsRows(details[1..], usage, licence, transaction)
  {
    hide GoodsRow;
  }

  /** Where the loop stands after a whole block. */
  function AfterBlock(b: UsageBlock, liteLicences: set<string>, usage: Option<nat>, s: SplitState): SplitState
    requires BlockOk(b)
  {
    var e := Entered(b, liteLicences, s);
    if IsLite(b, liteLicences)
    then e.(lite := s.lite + [BlockBodies(b)], block := [],
            rows := if usage.Some? then BlockRows(b, usage.value, s.rows) else s.rows)
    else e.(spire := s.spire + [BlockBodies(b)], block := [])
  }

  lemma BlockLines(b: UsageBlock, n: nat, pad: string)
    ensures var bodies := Bodies(b.details);
            NumberedLines(BlockBodies(b), n, pad) ==
            [NumberedLine(n, Body(b.head)) + pad]
            + (NumberedLines(bodies, n + 1, pad) + [NumberedLine(n + 1 + |bodies|, Body(b.tail)) + pad])
    ensures BlockBodies(b) == ([Body(b.head)] + Bodies(b.details)) + [Body(b.tail)]
  {
    var bodies := Bodies(b.details);
    BodiesAppend([b.head] + b.details, [b.tail]);
    BodiesAppend([b.head], b.details);
    assert Bodies([b.tail]) == [Body(b.tail)] && Bodies([b.head]) == [Body(b.head)];
    Assoc([Body(b.head)], bodies, [Body(b.tail)]);
    NumberedLinesCons(Body(b.head), bodies + [Body(b.tail)], n, pad);
    NumberedLinesPush(bodies, Body(b.tail), n + 1, pad);
  }

  lemma NumberedLinesCons(body: string, bodies: seq<string>, n: nat, pad: string)
    ensures NumberedLines([body] + bodies, n, pad) == [NumberedLine(n, body) + pad] + NumberedLines(bodies, n + 1, pad)
  {
    assert ([body] + bodies)[1..] == bodies;
  }

  lemma RunBlock(b: UsageBlock, n: nat, pad: string, liteLicences: set<string>, usage: Option<nat>, s: SplitState)
    requires BlockOk(b) && PadOk(pad) && s.block == []
    ensures Run(NumberedLines(BlockBodies(b), n, pad), liteLicences, usage, s) ==
            Reading(AfterBlock(b, liteLicences, usage, s))
  {
    hide Step;
    BlockLines(b, n, pad);
    var first := NumberedLine(n, Body(b.head)) + pad;
    var inner := NumberedLines(Bodies(b.details), n + 1, pad);
    var m := n + 1 + |Bodies(b.details)|;
    var last := NumberedLine(m, Body(b.tail)) + pad;
    var s1 := Entered(b, liteLicences, s).(block := [Body(b.head)]);
    assert s.block + [Body(b.head)] == [Body(b.head)];
    RunAppend([first], inner + [last], liteLicences, usage, s);
    RunOne(first, liteLicences, usage, s);
    StepHead(n, b, pad, liteLicences, usage, s);
    RunAppend(inner, [last], liteLicences, usage, s1);
    RunDetails(b.details, n + 1, pad, liteLicences, usage, s1);
    AfterDetailsTotal(b.details, usage, s1);
    var s2 := AfterDetails(b.details, usage, s1);
    RunOne(last, liteLicences, usage, s2);
    StepTail(m, b.tail, pad, liteLicences, usage, s2);
  }

  lemma RunOne(line: string, liteLicences: set<string>, usage: Option<nat>, s: SplitState)
    ensures Run([line], liteLicences, usage, s) == Step(line, liteLicences, usage, s)
  {
    assert [line][1..] == [];
  }

  // ---------------------------------------------------------------- the whole file

  function AfterBlocks(blocks: seq<UsageBlock>, liteLicences: set<string>, usage: Option<nat>, s: SplitState): SplitState
    requires BlocksOk(blocks)
  {
    if blocks == [] then s
    else AfterBlocks(blocks[1..], liteLicences, usage, AfterBlock(blocks[0], liteLicences, usage, s))
  }

  lemma {:induction false} RunBlocks(blocks: seq<UsageBlock>, n: nat, pad: string, liteLicences: set<string>, usage: Option<nat>, s: SplitState)
    requires BlocksOk(blocks) && PadOk(pad) && s.block == []
    ensures Run(NumberedLines(Flatten(AllBlockBodies(blocks)), n, pad), liteLicences, usage, s) ==
            Reading(AfterBlocks(blocks, liteLicences, usage, s))
  {
    if blocks != [] {
      var first := BlockBodies(blocks[0]);
      var others := Flatten(AllBlockBodies(blocks[1..]));
      assert AllBlockBodies(blocks)[1..] == AllBlockBodies(blocks[1..]);
      NumberedLinesAppend(first, others, n, pad);
      RunAppend(NumberedLines(first, n, pad), NumberedLines(others, n + |first|, pad), liteLicences, usage, s);
      RunBlock(blocks[0], n, pad, liteLicences, usage, s);
      RunBlocks(blocks[1..], n + |first|, pad, liteLicences, usage, AfterBlock(blocks[0], liteLicences, usage, s));
    }
  }

  /** The block, if it belongs on that side. */
  function OnSide(b: UsageBlock, liteLicences: set<string>, lite: bool): seq<Block>
    requires BlockOk(b)
  {
    if IsLite(b, liteLicences) == lite then [BlockBodies(b)] else []
  }

  lemma SideFirst(blocks: seq<UsageBlock>, liteLicences: set<string>, lite: bool)
    requires BlocksOk(blocks) && blocks != []
    ensures AllBlockBodies(Side(blocks, liteLicences, lite)) ==
            OnSide(blocks[0], liteLicences, lite) + AllBlockBodies(Side(blocks[1..], liteLicences, lite))
  {
    var side := Side(blocks, liteLicences, lite);
    var rest := Side(blocks[1..], liteLicences, lite);
    if IsLite(blocks[0], liteLicences) == lite {
      assert side[1..] == rest;
    } else {
      assert [] + AllBlockBodies(rest) == AllBlockBodies(rest);
    }
  }

  lemma AfterBlockSides(b: UsageBlock, liteLicences: set<string>, usage: Option<nat>, s: SplitState)
    requires BlockOk(b) && s.block == []
    ensures var t := AfterBlock(b, liteLicences, usage, s);
            && t.spire == s.spire + OnSide(b, liteLicences, false)
            && t.lite == s.lite + OnSide(b, liteLicences, true)
            && t.block == []
  {
    assert s.spire + [] == s.spire && s.lite + [] == s.lite;
  }

  lemma {:induction false} AfterBlocksSides(blocks: seq<UsageBlock>, liteLicences: set<string>, usage: Option<nat>, s: SplitState)
    requires BlocksOk(blocks) && s.block == []
    ensures var t := AfterBlocks(blocks, liteLicences, usage, s);
            && t.spire == s.spire + AllBlockBodies(Side(blocks, liteLicences, false))
            && t.lite == s.lite + AllBlockBodies(Side(blocks, liteLicences, true))
            && t.block == []
  {
    if blocks == [] {
      assert s.spire + [] == s.spire && s.lite + [] == s.lite;
    } else {
      var s1 := AfterBlock(blocks[0], liteLicences, usage, s);
      AfterBlockSides(blocks[0], liteLicences, usage, s);
      AfterBlocksSides(blocks[1..], liteLicences, usage, s1);
      SideFirst(blocks, liteLicences, false);
      SideFirst(blocks, liteLicences, true);
      Assoc(s.spire, OnSide(blocks[0], liteLicences, false), AllBlockBodies(Side(blocks[1..], liteLicences, false)));
      Assoc(s.lite, OnSide(blocks[0], liteLicences, true), AllBlockBodies(Side(blocks[1..], liteLicences, true)));
    }
  }

  lemma {:induction false} AfterBlocksRows(blocks: seq<UsageBlock>, liteLicences: set<string>, usage: Option<nat>, s: SplitState)
    requires BlocksOk(blocks)
    ensures AfterBlocks(blocks, liteLicences, usage, s).rows == FileRows(blocks, liteLicences, usage, s.rows)
  {
    if blocks != [] {
      AfterBlocksRows(blocks[1..], liteLicences, usage, AfterBlock(blocks[0], liteLicences, usage, s));
    }
  }

  /** A line without any licence keyword leaves the licence, the owner and the rows alone. */
  lemma PlainLine(line: string, dataLine: string, s: SplitState, liteLicences: set<string>, usage: Option<nat>)
    requires !Contains(line, LICENCE_USAGE)
    requires s.owner != Lite || !IsGoodsLine(dataLine)
    ensures EnterLicence(line, s, liteLicences) == Some(s)
    ensures MapTransaction(line, dataLine, s, usage) == Some(s.rows)
    ensures CloseLicence(line, s) == s
  {
    EndMarkHasBothWords(line);
  }

  lemma StepFileHeader(n: nat, r: Fields, pad: string, liteLicences: set<string>, usage: Option<nat>, s: SplitState)
    requires HeaderOk(r) && PadOk(pad) && s.owner == Nobody
    ensures Step(NumberedLine(n, Body(r)) + pad, liteLicences, usage, s) ==
            Reading(s.(spire := s.spire + [s.block + [Body(r)]], block := []))
  {
    LineShape(n, r, pad);
    SubstringTestsAgree(n, r);
    WordsArePlain();
    WordInLine(n, r, LICENCE_USAGE);
    var line := NumberedLine(n, Body(r));
    var s2 := s.(block := s.block + [Body(r)]);
    PlainLine(line, Body(r), s, liteLicences, usage);
    PlainLine(line, Body(r), s2, liteLicences, usage);
    PlainLine(line, Body(r), CloseHeader(line, s2), liteLicences, usage);
    assert !Contains(line, FILE_TRAILER) && Contains(line, FILE_HEADER);
  }

  lemma StepTrailer(n: nat, r: Fields, pad: string, liteLicences: set<string>, usage: Option<nat>, s: SplitState)
    requires TrailerOk(r) && PadOk(pad)
    ensures var block := s.block + [Body(r)];
            Step(NumberedLine(n, Body(r)) + pad, liteLicences, usage, s) ==
            Finished(s.(block := block, spire := s.spire + [block]))
  {
    LineShape(n, r, pad);
    SubstringTestsAgree(n, r);
    WordsArePlain();
    WordInLine(n, r, LICENCE_USAGE);
    WordInLine(n, r, LINE);
    var line := NumberedLine(n, Body(r));
    PlainLine(line, Body(r), s, liteLicences, usage);
    PlainLine(line, Body(r), s.(block := s.block + [Body(r)]), liteLicences, usage);
    assert Contains(line, FILE_TRAILER);
  }

  function SpireSide(f: UsageFile, liteLicences: set<string>): (g: UsageFile)
    requires WellFormed(f)
    ensures WellFormed(g)
  {
    f.(blocks := Side(f.blocks, liteLicences, false))
  }

  predicate LinesOk(lines: seq<string>) {
    forall k :: 0 <= k < |lines| ==> Free(lines[k], LINE_SEP)
  }

  lemma {:induction false} BodiesFree(records: seq<Fields>)
    requires forall k :: 0 <= k < |records| ==> SeparatorFree(records[k])
    ensures LinesOk(Bodies(records))
  {
    if records != [] {
      JoinFree(records[0], FIELD_SEP, LINE_SEP);
      BodiesFree(records[1..]);
    }
  }

  lemma {:induction false} BlocksFree(blocks: seq<UsageBlock>)
    requires BlocksOk(blocks)
    ensures LinesOk(Flatten(AllBlockBodies(blocks)))
  {
    if blocks != [] {
      BodiesFree(BlockRecords(blocks[0]));
      BlocksFree(blocks[1..]);
      assert AllBlockBodies(blocks)[1..] == AllBlockBodies(blocks[1..]);
    }
  }

  lemma FileLines(f: UsageFile)
    requires WellFormed(f)
    ensures Flatten(FileBlocks(f)) == [Body(f.header)] + Flatten(AllBlockBodies(f.blocks)) + [Body(f.trailer)]
    ensures LinesOk(Flatten(FileBlocks(f)))
  {
    var middle := AllBlockBodies(f.blocks);
    FlattenAppend([[Body(f.header)]] + middle, [[Body(f.trailer)]]);
    FlattenAppend([[Body(f.header)]], middle);
    FlattenOne([Body(f.header)]);
    FlattenOne([Body(f.trailer)]);
    BlocksFree(f.blocks);
    JoinFree(f.header, FIELD_SEP, LINE_SEP);
    JoinFree(f.trailer, FIELD_SEP, LINE_SEP);
  }

  lemma {:induction false} NumberedLinesFree(bodies: seq<string>, from: nat, pad: string)
    requires LinesOk(bodies) && PadOk(pad)
    ensures AllFree(NumberedLines(bodies, from, pad), LINE_SEP)
  {
    if bodies != [] {
      DecimalRoundTrip(from);
      NumberedLinesFree(bodies[1..], from + 1, pad);
    }
  }

  /** Splitting the file's text at the line separators gives its numbered lines back. */
  lemma FileTextLines(f: UsageFile, pad: string, rest: seq<string>)
    requires WellFormed(f) && PadOk(pad) && AllFree(rest, LINE_SEP)
    ensures Split(FileText(f, pad, rest), LINE_SEP) == NumberedLines(Flatten(FileBlocks(f)), 1, pad) + rest
  {
    FileLines(f);
    var bodies := Flatten(FileBlocks(f));
    NumberedLinesFree(bodies, 1, pad);
    NumberedLinesAt(bodies, 1, pad);
    SplitJoin(NumberedLines(bodies, 1, pad) + rest, LINE_SEP);
  }

  /**
   For every well-formed usage file, with or without carriage returns and whatever follows its
   trailer: the SPIRE side is the header, SPIRE's blocks in file order, and the trailer; the LITE
   side is LITE's blocks in file order; and the rows mapped are exactly `FileRows`.
   */
  lemma SplitIsPartition(f: UsageFile, pad: string, rest: seq<string>, liteLicences: set<string>,
                         usage: Option<nat>, rows: set<TransactionRow>)
    requires WellFormed(f) && PadOk(pad) && AllFree(rest, LINE_SEP)
    ensures var p := SplitFile(FileText(f, pad, rest), liteLicences, usage, rows);
            && p.Finished?
            && p.state.spire == FileBlocks(SpireSide(f, liteLicences))
            && p.state.lite == AllBlockBodies(Side(f.blocks, liteLicences, true))
            && p.state.rows == FileRows(f.blocks, liteLicences, usage, rows)
  {
    hide HeaderOk, TrailerOk, HeadOk, TailOk, DetailOk, Step, NumberedLine, Body, AfterBlock, BlockRows, IsLite;
    var s0 := Start(rows);
    var s1 := s0.(spire := [[Body(f.header)]]);
    var m := NumberedFile(f, pad, rest);
    var first := NumberedLine(1, Body(f.header)) + pad;
    var inner := NumberedLines(Flatten(AllBlockBodies(f.blocks)), 2, pad);
    var last := NumberedLine(m, Body(f.trailer)) + pad;
    StepFileHeader(1, f.header, pad, liteLicences, usage, s0);
    assert [] + [Body(f.header)] == [Body(f.header)];
    assert s0.spire + [[Body(f.header)]] == [[Body(f.header)]];
    RunAppend([first], inner + ([last] + rest), liteLicences, usage, s0);
    RunOne(first, liteLicences, usage, s0);
    RunAppend(inner, [last] + rest, liteLicences, usage, s1);
    RunBlocks(f.blocks, 2, pad, liteLicences, usage, s1);
    AfterBlocksSides(f.blocks, liteLicences, usage, s1);
    AfterBlocksRows(f.blocks, liteLicences, usage, s1);
    var s2 := AfterBlocks(f.blocks, liteLicences, usage, s1);
    StepTrailer(m, f.trailer, pad, liteLicences, usage, s2);
    assert [] + [Body(f.trailer)] == [Body(f.trailer)];
    RunAppend([last], rest, liteLicences, usage, s2);
    RunOne(last, liteLicences, usage, s2);
    var lite := AllBlockBodies(Side(f.blocks, liteLicences, true));
    assert [] + lite == lite;
  }

  /** The text of a file that breaks off before its trailer. */
  function CutText(f: UsageFile, pad: string): string {
    Join(NumberedLines([Body(f.header)] + Flatten(AllBlockBodies(f.blocks)), 1, pad), LINE_SEP)
  }

  lemma CutLines(f: UsageFile, pad: string)
    requires WellFormed(f) && PadOk(pad)
    ensures Split(CutText(f, pad), LINE_SEP) ==
            [NumberedLine(1, Body(f.header)) + pad] + NumberedLines(Flatten(AllBlockBodies(f.blocks)), 2, pad)
  {
    var bodies := [Body(f.header)] + Flatten(AllBlockBodies(f.blocks));
    BlocksFree(f.blocks);
    JoinFree(f.header, FIELD_SEP, LINE_SEP);
    NumberedLinesFree(bodies, 1, pad);
    NumberedLinesAt(bodies, 1, pad);
    SplitJoin(NumberedLines(bodies, 1, pad), LINE_SEP);
    NumberedLinesCons(Body(f.header), Flatten(AllBlockBodies(f.blocks)), 1, pad);
  }

  /** A usage file that breaks off before its trailer is split in the same way, without a trailer on SPIRE's side. */
  lemma CutFileIsSplitAlike(f: UsageFile, pad: string, liteLicences: set<string>, usage: Option<nat>, rows: set<TransactionRow>)
    requires WellFormed(f) && PadOk(pad)
    ensures var p := SplitFile(CutText(f, pad), liteLicences, usage, rows);
            && ResultOf(p) == Blocks([[Body(f.header)]] + AllBlockBodies(Side(f.blocks, liteLicences, false)),
                                     AllBlockBodies(Side(f.blocks, liteLicences, true)))
            && RowsOf(p) == FileRows(f.blocks, liteLicences, usage, rows)
  {
    hide HeaderOk, TrailerOk, HeadOk, TailOk, DetailOk, Step, NumberedLine, Body, AfterBlock, BlockRows, IsLite;
    var s0 := Start(rows);
    var s1 := s0.(spire := [[Body(f.header)]]);
    var first := NumberedLine(1, Body(f.header)) + pad;
    var inner := NumberedLines(Flatten(AllBlockBodies(f.blocks)), 2, pad);
    CutLines(f, pad);
    StepFileHeader(1, f.header, pad, liteLicences, usage, s0);
    assert [] + [Body(f.header)] == [Body(f.header)];
    assert s0.spire + [[Body(f.header)]] == [[Body(f.header)]];
    RunAppend([first], inner, liteLicences, usage, s0);
    RunOne(first, liteLicences, usage, s0);
    RunBlocks(f.blocks, 2, pad, liteLicences, usage, s1);
    AfterBlocksSides(f.blocks, liteLicences, usage, s1);
    AfterBlocksRows(f.blocks, liteLicences, usage, s1);
    var lite := AllBlockBodies(Side(f.blocks, liteLicences, true));
    assert [] + lite == lite;
  }

  /** The lines of the file as the loop meets them; `m` is the trailer's number. */
  lemma NumberedFile(f: UsageFile, pad: string, rest: seq<string>) returns (m: nat)
    requires WellFormed(f) && PadOk(pad) && AllFree(rest, LINE_SEP)
    ensures Split(FileText(f, pad, rest), LINE_SEP) ==
            [NumberedLine(1, Body(f.header)) + pad]
            + (NumberedLines(Flatten(AllBlockBodies(f.blocks)), 2, pad)
               + ([NumberedLine(m, Body(f.trailer)) + pad] + rest))
  {
    FileTextLines(f, pad, rest);
    FileLines(f);
    var middle := Flatten(AllBlockBodies(f.blocks));
    m := 2 + |middle|;
    var first := NumberedLine(1, Body(f.header)) + pad;
    var inner := NumberedLines(middle, 2, pad);
    var last := NumberedLine(m, Body(f.trailer)) + pad;
    Assoc([Body(f.header)], middle, [Body(f.trailer)]);
    NumberedLinesCons(Body(f.header), middle + [Body(f.trailer)], 1, pad);
    NumberedLinesPush(middle, Body(f.trailer), 2, pad);
    Assoc([first], inner + [last], rest);
    Assoc(inner, [last], rest);
  }

  lemma {:induction false} SpireSideIsAllSpire(blocks: seq<UsageBlock>, liteLicences: set<string>)
    requires BlocksOk(blocks)
    ensures Side(Side(blocks, liteLicences, false), liteLicences, false) == Side(blocks, liteLicences, false)
    ensures Side(Side(blocks, liteLicences, false), liteLicences, true) == []
  {
    if blocks != [] {
      SpireSideIsAllSpire(blocks[1..], liteLicences);
      var rest := Side(blocks[1..], liteLicences, false);
      if !IsLite(blocks[0], liteLicences) {
        assert ([blocks[0]] + rest)[1..] == rest;
      }
    }
  }

  /**
   Rebuilding SPIRE's file from the split and splitting that again gives the same SPIRE side
   and an empty LITE side.
   */
  lemma RebuildThenResplit(f: UsageFile, pad: string, rest: seq<string>, liteLicences: set<string>)
    requires WellFormed(f) && PadOk(pad) && AllFree(rest, LINE_SEP)
    ensures var first := ResultOf(SplitFile(FileText(f, pad, rest), liteLicences, None, {}));
            && first.Blocks?
            && var rebuilt := Join(NumberedLines(Flatten(first.spire), 1, ""), LINE_SEP);
               ResultOf(SplitFile(rebuilt, liteLicences, None, {})) == Blocks(first.spire, [])
  {
    SplitIsPartition(f, pad, rest, liteLicences, None, {});
    var g := SpireSide(f, liteLicences);
    SplitIsPartition(g, "", [], liteLicences, None, {});
    SpireSideIsAllSpire(f.blocks, liteLicences);
    var lines := NumberedLines(Flatten(FileBlocks(g)), 1, "");
    assert lines + [] == lines;
  }

  // ---------------------------------------------------------------- mapped transactions

  lemma {:induction false} FileRowsKeep(blocks: seq<UsageBlock>, liteLicences: set<string>, usage: Option<nat>, rows: set<TransactionRow>)
    requires BlocksOk(blocks)
    ensures rows <= FileRows(blocks, liteLicences, usage, rows)
  {
    if blocks != [] {
      var next := if usage.Some? && IsLite(blocks[0], liteLicences) then BlockRows(blocks[0], usage.value, rows) else rows;
      FileRowsKeep(blocks[1..], liteLicences, usage, next);
    }
  }

  lemma {:induction false} GoodsRowsHold(details: seq<Fields>, k: nat, usage: nat, licence: string, transaction: string)
    requires DetailsOk(details) && k < |details| && details[k][0] == LINE
    ensures GoodsRow(details[k], usage, licence, transaction) in GoodsRows(details, usage, licence, transaction)
  {
    if k > 0 {
      GoodsRowsHold(details[1..], k - 1, usage, licence, transaction);
    }
  }

  /**
   After one run over a well-formed file every LITE transaction in it is mapped, blocks without
   goods lines included, and every LITE goods line has its own row.
   */
  lemma {:induction false} EveryLiteTransactionMapped(blocks: seq<UsageBlock>, i: nat, liteLicences: set<string>, usage: nat, rows: set<TransactionRow>)
    requires BlocksOk(blocks) && i < |blocks| && IsLite(blocks[i], liteLicences)
    ensures var after := FileRows(blocks, liteLicences, Some(usage), rows);
            && Mapped(after, Transaction(blocks[i]))
            && forall k :: 0 <= k < |blocks[i].details| && blocks[i].details[k][0] == LINE ==>
                 GoodsRow(blocks[i].details[k], usage, Licence(blocks[i]), Transaction(blocks[i])) in after
  {
    var next := if IsLite(blocks[0], liteLicences) then BlockRows(blocks[0], usage, rows) else rows;
    if i > 0 {
      EveryLiteTransactionMapped(blocks[1..], i - 1, liteLicences, usage, next);
    } else {
      var b := blocks[0];
      FileRowsKeep(blocks[1..], liteLicences, Some(usage), next);
      hide DetailOk, GoodsRows;
      var row :| row in next && row.transaction == Transaction(b);
      assert row in FileRows(blocks, liteLicences, Some(usage), rows);
      forall k | 0 <= k < |b.details| && b.details[k][0] == LINE
        ensures GoodsRow(b.details[k], usage, Licence(b), Transaction(b)) in FileRows(blocks, liteLicences, Some(usage), rows)
      {
        GoodsRowsHold(b.details, k, usage, Licence(b), Transaction(b));
      }
    }
  }

  // ---------------------------------------------------------------- exactly which rows are written

  predicate IsGoods(r: Fields) {
    |r| >= 2 && r[0] == "line"
  }

  predicate HasGoods(b: UsageBlock) {
    exists k :: 0 <= k < |b.details| && IsGoods(b.details[k])
  }

  /** The row of one of the block's goods lines. */
  predicate RowOfGoods(row: TransactionRow, b: UsageBlock, usage: nat)
    requires BlockOk(b)
  {
    exists k :: 0 <= k < |b.details| && IsGoods(b.details[k])
                && ParseInt(b.details[k][1]).Some? && row.line.Some? && ParseInt(b.details[k][1]).value == row.line.value
                && row.usage == usage && row.licence == b.head[3] && row.transaction == b.head[1]
  }

  /** The row of a block without goods lines, written only while its transaction has none. */
  predicate RowOfBlock(row: TransactionRow, b: UsageBlock, usage: nat)
    requires BlockOk(b)
  {
    !HasGoods(b) && row == TransactionRow(None, usage, b.head[3], b.head[1])
  }

  predicate HasRow(rows: set<TransactionRow>, transaction: string) {
    exists row :: row in rows && row.transaction == transaction
  }

  /** A LITE block before the `i`-th has the same transaction. */
  predicate SeenBefore(blocks: seq<UsageBlock>, liteLicences: set<string>, i: nat)
    requires BlocksOk(blocks) && i < |blocks|
  {
    exists j :: 0 <= j < i && blocks[j].head[3] in liteLicences && blocks[j].head[1] == blocks[i].head[1]
  }

  predicate Writes(blocks: seq<UsageBlock>, liteLicences: set<string>, usage: nat, rows: set<TransactionRow>, row: TransactionRow, i: nat)
    requires BlocksOk(blocks) && i < |blocks|
  {
    && blocks[i].head[3] in liteLicences
    && (RowOfGoods(row, blocks[i], usage)
        || (RowOfBlock(row, blocks[i], usage) && !HasRow(rows, blocks[i].head[1]) && !SeenBefore(blocks, liteLicences, i)))
  }

  lemma {:induction false} GoodsRowsAre(details: seq<Fields>, usage: nat, licence: string, transaction: string, row: TransactionRow)
    requires DetailsOk(details)
    ensures row in GoodsRows(details, usage, licence, transaction) <==>
            exists k :: 0 <= k < |details| && IsGoods(details[k])
                        && ParseInt(details[k][1]).Some? && row.line.Some? && ParseInt(details[k][1]).value == row.line.value
                        && row.usage == usage && row.licence == licence && row.transaction == transaction
  {
    hide ParseInt, Clean, Lacks;
    if details != [] {
      GoodsRowsAre(details[1..], usage, licence, transaction, row);
      DetailGoods(details[0]);
      if row in GoodsRows(details[1..], usage, licence, transaction) {
        var k :| 0 <= k < |details[1..]| && IsGoods(details[1..][k])
                 && ParseInt(details[1..][k][1]).Some? && row.line.Some? && ParseInt(details[1..][k][1]).value == row.line.value;
        assert details[k + 1] == details[1..][k];
      }
      if k :| 0 < k < |details| && IsGoods(details[k]) && ParseInt(details[k][1]).Some? && row.line.Some?
              && ParseInt(details[k][1]).value == row.line.value {
        assert details[1..][k - 1] == details[k];
      }
    }
  }

  lemma DetailGoods(r: Fields)
    requires DetailOk(r)
    ensures |r| >= 1 && (r[0] == LINE <==> IsGoods(r)) && (IsGoods(r) ==> GoodsOk(r) && ParseInt(r[1]).Some?)
  {
    hide ParseInt, Lacks;
  }

  lemma BlockRowsAre(b: UsageBlock, usage: nat, rows: set<TransactionRow>, row: TransactionRow)
    requires BlockOk(b)
    ensures row in BlockRows(b, usage, rows) <==>
            row in rows || RowOfGoods(row, b, usage) || (RowOfBlock(row, b, usage) && !HasRow(rows, b.head[1]))
    ensures HasRow(BlockRows(b, usage, rows), b.head[1])
  {
    hide ParseInt, DetailOk, HeadOk, TailOk;
    HeadIs(b);
    GoodsRowsAre(b.details, usage, b.head[3], b.head[1], row);
    GoodsOrNone(b, usage);
    var goods := GoodsRows(b.details, usage, b.head[3], b.head[1]);
    assert Mapped(rows + goods, b.head[1]) <==> HasRow(rows, b.head[1]) || HasGoods(b) by {
      hide GoodsRows, HasGoods;
      if HasGoods(b) {
        var g :| g in goods && g.transaction == b.head[1];
        assert g in rows + goods;
      }
      if HasRow(rows, b.head[1]) {
        var g :| g in rows && g.transaction == b.head[1];
        assert g in rows + goods;
      }
      if Mapped(rows + goods, b.head[1]) {
        var g :| g in rows + goods && g.transaction == b.head[1];
        assert g in rows || g in goods;
      }
    }
    var none := TransactionRow(None, usage, b.head[3], b.head[1]);
    if Mapped(rows + goods, b.head[1]) {
      var g :| g in rows + goods && g.transaction == b.head[1];
      assert g in BlockRows(b, usage, rows);
    } else {
      assert none in BlockRows(b, usage, rows);
    }
  }

  lemma HeadIs(b: UsageBlock)
    requires BlockOk(b)
    ensures HeadOk(b.head) && |b.head| >= 5 && Licence(b) == b.head[3] && Transaction(b) == b.head[1]
    ensures DetailsOk(b.details)
  {
  }

  lemma GoodsOrNone(b: UsageBlock, usage: nat)
    requires BlockOk(b)
    ensures var goods := GoodsRows(b.details, usage, b.head[3], b.head[1]);
            && (HasGoods(b) ==> exists g :: g in goods && g.transaction == b.head[1])
            && (!HasGoods(b) ==> goods == {})
  {
    hide ParseInt;
    HeadIs(b);
    var goods := GoodsRows(b.details, usage, b.head[3], b.head[1]);
    if k :| 0 <= k < |b.details| && IsGoods(b.details[k]) {
      GoodsRowsHold(b.details, k, usage, b.head[3], b.head[1]);
      assert GoodsRow(b.details[k], usage, b.head[3], b.head[1]) in goods;
    } else {
      forall g | g in goods
        ensures false
      {
        GoodsRowsAre(b.details, usage, b.head[3], b.head[1], g);
      }
    }
  }

  /**
   Exactly which rows the table holds after a run: those it held before, one for each goods line of
   a LITE block, and one without a line number for a LITE block without goods lines, unless its
   transaction had a row already or another LITE block before it has the same transaction.
   */
  lemma {:induction false} RowsWrittenExactly(blocks: seq<UsageBlock>, liteLicences: set<string>, usage: nat,
                                              rows: set<TransactionRow>, row: TransactionRow)
    requires BlocksOk(blocks)
    ensures row in FileRows(blocks, liteLicences, Some(usage), rows) <==>
            row in rows || exists i :: 0 <= i < |blocks| && Writes(blocks, liteLicences, usage, rows, row, i)
    decreases |blocks|
  {
    hide BlockOk, BlockRows, RowOfGoods, RowOfBlock, HasRow;
    if blocks != [] {
      var b := blocks[0];
      HeadIs(b);
      var next := if b.head[3] in liteLicences then BlockRows(b, usage, rows) else rows;
      assert IsLite(b, liteLicences) <==> b.head[3] in liteLicences;
      RowsWrittenExactly(blocks[1..], liteLicences, usage, next, row);
      BlockRowsAre(b, usage, rows, row);
      forall i | 0 <= i < |blocks| - 1
        ensures Writes(blocks[1..], liteLicences, usage, next, row, i) <==>
                Writes(blocks, liteLicences, usage, rows, row, i + 1)
      {
        LaterWrites(blocks, liteLicences, usage, rows, next, row, i);
      }
      FirstWrites(blocks, liteLicences, usage, rows, row);
      hide Writes, FileRows;
      if i :| 0 <= i < |blocks[1..]| && Writes(blocks[1..], liteLicences, usage, next, row, i) {
        assert Writes(blocks, liteLicences, usage, rows, row, i + 1);
      }
      if i :| 0 < i < |blocks| && Writes(blocks, liteLicences, usage, rows, row, i) {
        assert Writes(blocks[1..], liteLicences, usage, next, row, i - 1);
      }
    }
  }

  lemma FirstWrites(blocks: seq<UsageBlock>, liteLicences: set<string>, usage: nat, rows: set<TransactionRow>, row: TransactionRow)
    requires BlocksOk(blocks) && blocks != []
    ensures Writes(blocks, liteLicences, usage, rows, row, 0) <==>
            blocks[0].head[3] in liteLicences
            && (RowOfGoods(row, blocks[0], usage) || (RowOfBlock(row, blocks[0], usage) && !HasRow(rows, blocks[0].head[1])))
  {
    HeadIs(blocks[0]);
    hide RowOfGoods, RowOfBlock, HasRow, BlockOk;
  }

  lemma SeenLater(blocks: seq<UsageBlock>, liteLicences: set<string>, i: nat)
    requires BlocksOk(blocks) && i < |blocks| - 1
    ensures SeenBefore(blocks, liteLicences, i + 1) <==>
            SeenBefore(blocks[1..], liteLicences, i)
            || (blocks[0].head[3] in liteLicences && blocks[0].head[1] == blocks[i + 1].head[1])
  {
    assert forall j :: 0 <= j < |blocks| ==> BlockOk(blocks[j]) && |blocks[j].head| >= 5;
    hide BlockOk;
    if SeenBefore(blocks, liteLicences, i + 1) {
      var j :| 0 <= j < i + 1 && blocks[j].head[3] in liteLicences && blocks[j].head[1] == blocks[i + 1].head[1];
      assert j > 0 ==> blocks[1..][j - 1] == blocks[j];
    }
    if SeenBefore(blocks[1..], liteLicences, i) {
      var j :| 0 <= j < i && blocks[1..][j].head[3] in liteLicences && blocks[1..][j].head[1] == blocks[1..][i].head[1];
      assert blocks[j + 1] == blocks[1..][j];
    }
  }

  lemma OthersOfBlock(b: UsageBlock, usage: nat, rows: set<TransactionRow>, transaction: string)
    requires BlockOk(b)
    ensures HasRow(BlockRows(b, usage, rows), transaction) <==> HasRow(rows, transaction) || transaction == b.head[1]
  {
    hide RowOfGoods, RowOfBlock;
    var after := BlockRows(b, usage, rows);
    forall g
      ensures g in after ==> g in rows || g.transaction == b.head[1]
      ensures g in rows ==> g in after
    {
      BlockRowsAre(b, usage, rows, g);
      RowsName(g, b, usage);
    }
    BlockRowsAre(b, usage, rows, TransactionRow(None, 0, "", ""));
    hide BlockRows;
  }

  lemma RowsName(row: TransactionRow, b: UsageBlock, usage: nat)
    requires BlockOk(b)
    ensures RowOfGoods(row, b, usage) || RowOfBlock(row, b, usage) ==> row.transaction == b.head[1]
  {
  }

  lemma LaterWrites(blocks: seq<UsageBlock>, liteLicences: set<string>, usage: nat, rows: set<TransactionRow>,
                    next: set<TransactionRow>, row: TransactionRow, i: nat)
    requires BlocksOk(blocks) && i < |blocks| - 1 && |blocks[0].head| >= 5
    requires next == if blocks[0].head[3] in liteLicences then BlockRows(blocks[0], usage, rows) else rows
    ensures Writes(blocks[1..], liteLicences, usage, next, row, i) <==> Writes(blocks, liteLicences, usage, rows, row, i + 1)
  {
    SeenLater(blocks, liteLicences, i);
    HeadIs(blocks[i + 1]);
    OthersOfBlock(blocks[0], usage, rows, blocks[i + 1].head[1]);
    assert BlocksOk(blocks[1..]);
    hide RowOfGoods, RowOfBlock, HasRow, BlockOk, BlockRows, SeenBefore;
  }
}
