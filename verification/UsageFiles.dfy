/**
 Usage files as records, and what the split does to a well-formed one.

 A usage file is a header record, one block per licence transaction and a trailer; every
 record is a list of fields, the first of which is the record type. `WellFormed` says which
 texts the fields may not contain; under it the loop's substring tests agree with the record
 types, so splitting is the stable partition of the blocks by licence owner.
 */
module UsageFiles {
  import opened Text
  import opened UsageSplit

  type Fields = seq<string>

  datatype UsageBlock = UsageBlock(head: Fields, details: seq<Fields>, tail: Fields)

  datatype UsageFile = UsageFile(header: Fields, blocks: seq<UsageBlock>, trailer: Fields)

  // ---------------------------------------------------------------- printing

  function Body(record: Fields): string {
    Join(record, FIELD_SEP)
  }

  function Bodies(records: seq<Fields>): seq<string> {
    if records == [] then [] else [Body(records[0])] + Bodies(records[1..])
  }

  function BlockRecords(b: UsageBlock): seq<Fields> {
    [b.head] + b.details + [b.tail]
  }

  function BlockBodies(b: UsageBlock): Block {
    Bodies(BlockRecords(b))
  }

  function AllBlockBodies(blocks: seq<UsageBlock>): seq<Block> {
    if blocks == [] then [] else [BlockBodies(blocks[0])] + AllBlockBodies(blocks[1..])
  }

  /** The file's data lines, block by block: header, licences, trailer. */
  function FileBlocks(f: UsageFile): seq<Block> {
    [[Body(f.header)]] + AllBlockBodies(f.blocks) + [[Body(f.trailer)]]
  }

  function NumberedLine(n: nat, body: string): string {
    Decimal(n) + [FIELD_SEP] + body
  }

  /** Lines numbered upwards from `from`, each followed by `pad` (a carriage return, or nothing). */
  function NumberedLines(bodies: seq<string>, from: nat, pad: string): seq<string> {
    if bodies == [] then [] else [NumberedLine(from, bodies[0]) + pad] + NumberedLines(bodies[1..], from + 1, pad)
  }

  /** The text of the file; `rest` is whatever follows the trailer line. */
  function FileText(f: UsageFile, pad: string, rest: seq<string>): string {
    Join(NumberedLines(Flatten(FileBlocks(f)), 1, pad) + rest, LINE_SEP)
  }

  /** `build_edifact_file_from_data_blocks`. */
  method BuildEdifactFileFromDataBlocks(blocks: seq<Block>) returns (file: string)
    ensures file == Join(NumberedLines(Flatten(blocks), 1, ""), LINE_SEP)
  {
    file := "";
    var i := 1;
    ghost var done: seq<string> := [];
    for b := 0 to |blocks|
      invariant done == Flatten(blocks[..b])
      invariant i == |done| + 1
      invariant file == Printed(done)
    {
      var block := blocks[b];
      for k := 0 to |block|
        invariant done == Flatten(blocks[..b]) + block[..k]
        invariant i == |done| + 1
        invariant file == Printed(done)
      {
        PrintedPush(done, block[k]);
        file := file + (Decimal(i) + [FIELD_SEP] + block[k] + [LINE_SEP]);
        i := i + 1;
        done := done + [block[k]];
        assert block[..k + 1] == block[..k] + [block[k]];
      }
      assert block[..|block|] == block;
      assert blocks[..b + 1] == blocks[..b] + [block];
      FlattenAppend(blocks[..b], [block]);
      FlattenOne(block);
    }
    assert blocks[..|blocks|] == blocks;
    TerminatedDropLast(NumberedLines(done, 1, ""));
    if file != "" {
      file := file[..|file| - 1];
    }
  }

  /** The accumulated text of the lines printed so far. */
  function Printed(bodies: seq<string>): string {
    Terminated(NumberedLines(bodies, 1, ""))
  }

  lemma PrintedPush(bodies: seq<string>, body: string)
    ensures Printed(bodies + [body]) == Printed(bodies) + (Decimal(|bodies| + 1) + [FIELD_SEP] + body + [LINE_SEP])
  {
    NumberedLinesPush(bodies, body, 1, "");
    var line := NumberedLine(1 + |bodies|, body);
    assert line + "" == line;
    TerminatedPush(NumberedLines(bodies, 1, ""), line);
    Assoc(Printed(bodies), line, [LINE_SEP]);
  }

  lemma FlattenOne(b: Block)
    ensures Flatten([b]) == b
  {
    assert [b][1..] == [];
    assert b + [] == b;
  }

  /** Lines each followed by the line separator. */
  function Terminated(lines: seq<string>): string {
    if lines == [] then "" else lines[0] + [LINE_SEP] + Terminated(lines[1..])
  }

  lemma {:induction false} TerminatedPush(lines: seq<string>, line: string)
    ensures Terminated(lines + [line]) == Terminated(lines) + line + [LINE_SEP]
  {
    if lines == [] {
      assert ([] + [line])[1..] == [];
      assert Terminated([line]) == line + [LINE_SEP] + "";
    } else {
      assert (lines + [line])[1..] == lines[1..] + [line];
      TerminatedPush(lines[1..], line);
    }
  }

  lemma {:induction false} TerminatedDropLast(lines: seq<string>)
    ensures lines == [] ==> Terminated(lines) == ""
    ensures lines != [] ==> Terminated(lines) == Join(lines, LINE_SEP) + [LINE_SEP]
  {
    if |lines| == 1 {
      assert Terminated(lines) == lines[0] + [LINE_SEP] + "";
    } else if lines != [] {
      TerminatedDropLast(lines[1..]);
    }
  }

  lemma {:induction false} NumberedLinesPush(bodies: seq<string>, body: string, from: nat, pad: string)
    ensures NumberedLines(bodies + [body], from, pad) ==
            NumberedLines(bodies, from, pad) + [NumberedLine(from + |bodies|, body) + pad]
  {
    if bodies == [] {
      assert (bodies + [body])[1..] == [];
    } else {
      assert (bodies + [body])[1..] == bodies[1..] + [body];
      NumberedLinesPush(bodies[1..], body, from + 1, pad);
    }
  }

  lemma {:induction false} NumberedLinesAppend(a: seq<string>, b: seq<string>, from: nat, pad: string)
    ensures NumberedLines(a + b, from, pad) == NumberedLines(a, from, pad) + NumberedLines(b, from + |a|, pad)
  {
    if a == [] {
      assert a + b == b;
    } else {
      assert (a + b)[1..] == a[1..] + b;
      NumberedLinesAppend(a[1..], b, from + 1, pad);
    }
  }

  lemma {:induction false} NumberedLinesAt(bodies: seq<string>, from: nat, pad: string)
    ensures |NumberedLines(bodies, from, pad)| == |bodies|
    ensures forall k :: 0 <= k < |bodies| ==> NumberedLines(bodies, from, pad)[k] == NumberedLine(from + k, bodies[k]) + pad
  {
    if bodies != [] {
      NumberedLinesAt(bodies[1..], from + 1, pad);
    }
  }

  lemma {:induction false} BodiesAppend(a: seq<Fields>, b: seq<Fields>)
    ensures Bodies(a + b) == Bodies(a) + Bodies(b)
  {
    if a == [] {
      assert a + b == b;
    } else {
      assert (a + b)[1..] == a[1..] + b;
      BodiesAppend(a[1..], b);
    }
  }

  // ---------------------------------------------------------------- well-formed files

  predicate Lacks(record: Fields, word: string) {
    !SomeContains(record, word)
  }

  predicate SeparatorFree(record: Fields) {
    && |record| >= 1
    && AllFree(record, FIELD_SEP)
    && AllFree(record, LINE_SEP)
  }

  /** Fields hold no separator, and the line does not end in white space. */
  predicate Clean(record: Fields) {
    SeparatorFree(record) && Solid(record[|record| - 1])
  }

  predicate HeaderOk(r: Fields) {
    Clean(r) && r[0] == FILE_HEADER && Lacks(r, LICENCE_USAGE) && Lacks(r, FILE_TRAILER)
  }

  predicate TrailerOk(r: Fields) {
    Clean(r) && r[0] == FILE_TRAILER && Lacks(r, LICENCE_USAGE) && Lacks(r, LINE)
  }

  /** type, transaction, action, licence, status, ... */
  predicate HeadOk(r: Fields) {
    && Clean(r) && |r| >= 5 && r[0] == LICENCE_USAGE
    && Lacks(r, END) && Lacks(r, LINE) && Lacks(r, FILE_HEADER) && Lacks(r, FILE_TRAILER)
  }

  predicate TailOk(r: Fields) {
    && Clean(r) && |r| >= 2 && r[0] == END && r[1] == LICENCE_USAGE
    && Lacks(r, FILE_HEADER) && Lacks(r, FILE_TRAILER)
  }

  /** A goods line: type, line number, quantity used, value used, ... */
  predicate GoodsOk(r: Fields) {
    Clean(r) && |r| >= 4 && r[0] == LINE && Lacks(r, END) && ParseInt(r[1]).Some? && ParseInt(r[1]).value >= 0
  }

  /** A usage record, or the end of a goods line. */
  predicate OtherOk(r: Fields) {
    && Clean(r)
    && (r[0] == "usage" || r[0] == END)
    && (Lacks(r, LINE) || !Lacks(r, END))
  }

  predicate DetailOk(r: Fields) {
    && (GoodsOk(r) || OtherOk(r))
    && Lacks(r, LICENCE_USAGE) && Lacks(r, FILE_HEADER) && Lacks(r, FILE_TRAILER)
  }

  predicate BlockOk(b: UsageBlock) {
    HeadOk(b.head) && TailOk(b.tail) && forall k :: 0 <= k < |b.details| ==> DetailOk(b.details[k])
  }

  predicate WellFormed(f: UsageFile) {
    HeaderOk(f.header) && TrailerOk(f.trailer) && forall k :: 0 <= k < |f.blocks| ==> BlockOk(f.blocks[k])
  }

  predicate PadOk(pad: string) {
    pad == "" || pad == "\r"
  }

  // ---------------------------------------------------------------- lines

  /** What the loop reads from the line of a clean record, whatever its number and padding. */
  lemma LineShape(n: nat, r: Fields, pad: string)
    requires Clean(r) && PadOk(pad)
    ensures var line := NumberedLine(n, Body(r));
            && Strip(line + pad) == line
            && AfterFirst(line, FIELD_SEP) == Some(Body(r))
            && Split(line, FIELD_SEP) == [Decimal(n)] + r
            && Split(Body(r), FIELD_SEP) == r
            && Free(line + pad, LINE_SEP)
  {
    DecimalRoundTrip(n);
    var line := NumberedLine(n, Body(r));
    assert Free(Decimal(n), FIELD_SEP);
    BodyEnd(r);
    assert Solid(line);
    StripPadded(line, pad);
    AfterFirstSep(Decimal(n), Body(r), FIELD_SEP);
    SplitJoin(r, FIELD_SEP);
    SplitAtSep(Decimal(n), Body(r), FIELD_SEP);
    JoinFree(r, FIELD_SEP, LINE_SEP);
  }

  lemma {:induction false} BodyEnd(r: Fields)
    requires |r| >= 1 && Solid(r[|r| - 1])
    ensures var body := Body(r); body != "" ==> !IsSpace(body[|body| - 1])
  {
    if |r| > 1 {
      BodyEnd(r[1..]);
      assert Body(r) == r[0] + [FIELD_SEP] + Body(r[1..]);
    }
  }

  predicate PlainWord(w: string) {
    w != "" && !IsDigit(w[0]) && Free(w, FIELD_SEP)
  }

  lemma WordsArePlain()
    ensures PlainWord(LICENCE_USAGE) && PlainWord(END) && PlainWord(LINE) && PlainWord(FILE_HEADER) && PlainWord(FILE_TRAILER)
  {
  }

  /** A keyword occurs in a line exactly when it occurs in one of the record's fields. */
  lemma WordInLine(n: nat, r: Fields, w: string)
    requires |r| >= 1 && PlainWord(w)
    ensures Contains(NumberedLine(n, Body(r)), w) <==> !Lacks(r, w)
    ensures Contains(Body(r), w) <==> !Lacks(r, w)
  {
    ContainsJoin(r, FIELD_SEP, w);
    DecimalContainsNoWord(n, w);
    ContainsAcrossSep(Decimal(n), Body(r), FIELD_SEP, w);
  }

  lemma HasOwnType(r: Fields)
    requires |r| >= 1
    ensures !Lacks(r, r[0])
    ensures |r| >= 2 ==> !Lacks(r, r[1])
  {
    ContainsSelf(r[0]);
    if |r| >= 2 {
      ContainsSelf(r[1]);
    }
  }

  predicate RecordOk(r: Fields) {
    HeaderOk(r) || TrailerOk(r) || HeadOk(r) || TailOk(r) || DetailOk(r)
  }

  /** For every record of a well-formed file, the substring tests agree with the record-type fields. */
  lemma SubstringTestsAgree(n: nat, r: Fields)
    requires RecordOk(r)
    ensures var line := NumberedLine(n, Body(r));
            && (StartsLicence(line) <==> r[0] == LICENCE_USAGE)
            && (EndsLicence(line) <==> |r| >= 2 && r[0] == END && r[1] == LICENCE_USAGE)
            && (Contains(line, FILE_HEADER) && !Contains(line, FILE_TRAILER) <==> r[0] == FILE_HEADER)
            && (Contains(line, FILE_TRAILER) <==> r[0] == FILE_TRAILER)
            && (!HeaderOk(r) ==> (IsGoodsLine(Body(r)) <==> r[0] == LINE))
  {
    WordsArePlain();
    WordInLine(n, r, LICENCE_USAGE);
    WordInLine(n, r, END);
    WordInLine(n, r, LINE);
    WordInLine(n, r, FILE_HEADER);
    WordInLine(n, r, FILE_TRAILER);
    HasOwnType(r);
    TrailerIsNoHeader(r);
  }

  lemma TrailerIsNoHeader(r: Fields)
    ensures TrailerOk(r) ==> r[0] != FILE_HEADER
    ensures HeaderOk(r) ==> r[0] != FILE_TRAILER
  {
  }
}
