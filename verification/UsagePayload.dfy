/**
 The usage payload sent to LITE: `build_json_payload_from_data_blocks`.
 */
module UsagePayload {
  import opened Text
  import opened UsageSplit
  import opened UsageFiles
  import opened UsagePartition

  /** `""` until a header is read, `None` for an unknown status code. */
  datatype UsageAction = Blank | Unknown | Open | Exhaust | Surrender | Expire | Cancel

  datatype Good = Good(id: Option<string>, usage: string, value: string, currency: string)

  datatype LicencePayload = LicencePayload(id: Option<string>, action: UsageAction, completionDate: string, goods: seq<Good>)

  /** GoodIdMapping (line number and licence to LITE id) and LicenceIdMapping (licence to LITE id). */
  datatype IdMaps = IdMaps(goods: map<(string, string), string>, licences: map<string, string>)

  /** What one block has been read into; the licence reference survives from block to block. */
  datatype Building = Building(reference: Option<string>, licence: LicencePayload)

  const EMPTY_LICENCE := LicencePayload(Some(""), Blank, "", [])

  function StatusAction(code: string): UsageAction {
    if code == "O" then Open
    else if code == "E" then Exhaust
    else if code == "S" then Surrender
    else if code == "D" then Expire
    else if code == "C" then Cancel
    else Unknown
  }

  function GoodId(line: string, reference: Option<string>, ids: IdMaps): Option<string> {
    if reference.Some? && (line, reference.value) in ids.goods then Some(ids.goods[(line, reference.value)]) else None
  }

  function LicenceId(reference: string, ids: IdMaps): Option<string> {
    if reference in ids.licences then Some(ids.licences[reference]) else None
  }

  function ReadHeader(line: string, b: Building, ids: IdMaps): Option<Building> {
    if !StartsLicence(line) then Some(b)
    else
      var tokens := Split(line, FIELD_SEP);
      if |tokens| < 5 then None
      else
        var completed := tokens[4] != "O" && |tokens| >= 6;
        Some(Building(Some(tokens[3]), b.licence.(
               action := StatusAction(tokens[4]),
               completionDate := if completed then tokens[5] else b.licence.completionDate,
               id := LicenceId(tokens[3], ids))))
  }

  function ReadGood(line: string, b: Building, ids: IdMaps): Option<Building> {
    var tokens := Split(line, FIELD_SEP);
    if tokens[0] != LINE then Some(b)
    else if |tokens| < 4 then None
    else
      var good := Good(GoodId(tokens[1], b.reference, ids), tokens[2], tokens[3], if |tokens| == 5 then tokens[4] else "");
      Some(b.(licence := b.licence.(goods := b.licence.goods + [good])))
  }

  /** One data line; `None` is `IndexError`. */
  function ReadLine(line: string, b: Building, ids: IdMaps): Option<Building> {
    match ReadHeader(line, b, ids)
    case None => None
    case Some(b') => ReadGood(line, b', ids)
  }

  function ReadBlock(block: Block, b: Building, ids: IdMaps): Option<Building> {
    if block == [] then Some(b)
    else
      match ReadLine(block[0], b, ids)
      case None => None
      case Some(b') => ReadBlock(block[1..], b', ids)
  }

  function ReadBlocks(blocks: seq<Block>, reference: Option<string>, ids: IdMaps): Option<seq<LicencePayload>> {
    if blocks == [] then Some([])
    else
      match ReadBlock(blocks[0], Building(reference, EMPTY_LICENCE), ids)
      case None => None
      case Some(b) =>
        match ReadBlocks(blocks[1..], b.reference, ids)
        case None => None
        case Some(rest) => Some([b.licence] + rest)
  }

  function Opened(licences: seq<LicencePayload>): seq<LicencePayload> {
    if licences == [] then []
    else (if licences[0].action == Open then [licences[0]] else []) + Opened(licences[1..])
  }

  function Payload(blocks: seq<Block>, ids: IdMaps): Option<seq<LicencePayload>> {
    match ReadBlocks(blocks, None, ids)
    case None => None
    case Some(licences) => Some(Opened(licences))
  }

  /** `build_json_payload_from_data_blocks`: its "licences" list. */
  method BuildJsonPayloadFromDataBlocks(blocks: seq<Block>, ids: IdMaps) returns (r: Option<seq<LicencePayload>>)
    ensures r == Payload(blocks, ids)
  {
    var payload: map<UsageAction, seq<LicencePayload>> := map[];
    var reference: Option<string> := None;
    ghost var read: seq<LicencePayload> := [];
    assert blocks[0..] == blocks;
    assert ReadBlocks(blocks, None, ids).Some? ==>
        [] + ReadBlocks(blocks, None, ids).value == ReadBlocks(blocks, None, ids).value;
    for i := 0 to |blocks|
      invariant match ReadBlocks(blocks[i..], reference, ids)
                case None => ReadBlocks(blocks, None, ids) == None
                case Some(rest) => ReadBlocks(blocks, None, ids) == Some(read + rest)
      invariant Opened(read) == if Open in payload then payload[Open] else []
    {
      assert blocks[i..][1..] == blocks[i + 1..];
      var block := blocks[i];
      var licence := EMPTY_LICENCE;
      ghost var start := Building(reference, licence);
      assert block[0..] == block;
      for k := 0 to |block|
        invariant ReadBlock(block[k..], Building(reference, licence), ids) == ReadBlock(block, start, ids)
      {
        assert block[k..][1..] == block[k + 1..];
        var line := block[k];
        var tokens := Split(line, FIELD_SEP);
        if StartsLicence(line) {
          if |tokens| < 5 {
            return None;
          }
          reference := Some(tokens[3]);
          licence := licence.(action := StatusAction(tokens[4]));
          if tokens[4] != "O" && |tokens| >= 6 {
            licence := licence.(completionDate := tokens[5]);
          }
          licence := licence.(id := LicenceId(tokens[3], ids));
        }
        if tokens[0] == LINE {
          if |tokens| < 4 {
            return None;
          }
          var currency := if |tokens| == 5 then tokens[4] else "";
          var good := Good(GoodId(tokens[1], reference, ids), tokens[2], tokens[3], currency);
          licence := licence.(goods := licence.goods + [good]);
        }
      }
      if ReadBlocks(blocks[i + 1..], reference, ids).Some? {
        Assoc(read, [licence], ReadBlocks(blocks[i + 1..], reference, ids).value);
      }
      OpenedPush(read, licence);
      read := read + [licence];
      var sameAction := if licence.action in payload then payload[licence.action] else [];
      payload := payload[licence.action := sameAction + [licence]];
    }
    assert read + [] == read;
    return Some(if Open in payload then payload[Open] else []);
  }

  lemma {:induction false} OpenedPush(licences: seq<LicencePayload>, licence: LicencePayload)
    ensures Opened(licences + [licence]) == Opened(licences) + (if licence.action == Open then [licence] else [])
  {
    var last := if licence.action == Open then [licence] else [];
    OneOpened(licence);
    if licences == [] {
      assert licences + [licence] == [licence];
      assert [] + last == last;
    } else {
      var all := licences + [licence];
      assert all[0] == licences[0] && all[1..] == licences[1..] + [licence];
      OpenedPush(licences[1..], licence);
      OpenedFirst(all);
      OpenedFirst(licences);
      hide Opened;
      Assoc(if licences[0].action == Open then [licences[0]] else [], Opened(licences[1..]), last);
    }
  }

  lemma OpenedFirst(licences: seq<LicencePayload>)
    requires licences != []
    ensures Opened(licences) == (if licences[0].action == Open then [licences[0]] else []) + Opened(licences[1..])
  {
  }

  // ---------------------------------------------------------------- what a well-formed block reports

  function ReportedGood(r: Fields, licence: string, ids: IdMaps): Good
    requires GoodsOk(r)
  {
    Good(if (r[1], licence) in ids.goods then Some(ids.goods[(r[1], licence)]) else None, r[2], r[3], if |r| == 5 then r[4] else "")
  }

  /** One good per goods line of the block, in order. */
  function ReportedGoods(details: seq<Fields>, licence: string, ids: IdMaps): seq<Good>
    requires DetailsOk(details)
  {
    if details == [] then []
    else (if details[0][0] == LINE then [ReportedGood(details[0], licence, ids)] else [])
         + ReportedGoods(details[1..], licence, ids)
  }

  function Completion(head: Fields): string
    requires HeadOk(head)
  {
    if head[4] != "O" && |head| >= 6 then head[5] else ""
  }

  function Reported(b: UsageBlock, ids: IdMaps): LicencePayload
    requires BlockOk(b)
  {
    LicencePayload(if b.head[3] in ids.licences then Some(ids.licences[b.head[3]]) else None, StatusAction(b.head[4]),
                   Completion(b.head), ReportedGoods(b.details, b.head[3], ids))
  }

  /** The open licences among the blocks, in file order. */
  function OpenReports(blocks: seq<UsageBlock>, ids: IdMaps): seq<LicencePayload>
    requires BlocksOk(blocks)
  {
    if blocks == [] then []
    else (if blocks[0].head[4] == "O" then [Reported(blocks[0], ids)] else []) + OpenReports(blocks[1..], ids)
  }

  lemma ReadDetail(r: Fields, b: Building, ids: IdMaps)
    requires DetailOk(r) && b.reference.Some?
    ensures ReadLine(Body(r), b, ids) ==
            Some(if r[0] != LINE then b
                 else b.(licence := b.licence.(goods := b.licence.goods + [ReportedGood(r, b.reference.value, ids)])))
  {
    WordsArePlain();
    WordInLine(0, r, LICENCE_USAGE);
    SplitJoin(r, FIELD_SEP);
    assert r[0] == LINE ==> GoodsOk(r);
  }

  lemma {:induction false} ReadDetails(details: seq<Fields>, b: Building, ids: IdMaps)
    requires DetailsOk(details) && b.reference.Some?
    ensures ReadBlock(Bodies(details), b, ids) ==
            Some(b.(licence := b.licence.(goods := b.licence.goods + ReportedGoods(details, b.reference.value, ids))))
  {
    if details == [] {
      assert b.licence.goods + [] == b.licence.goods;
    } else {
      var r := details[0];
      ReadDetail(r, b, ids);
      var b' := ReadLine(Body(r), b, ids).value;
      ReadDetails(details[1..], b', ids);
      assert Bodies(details)[1..] == Bodies(details[1..]);
      var rest := ReportedGoods(details[1..], b.reference.value, ids);
      if r[0] == LINE {
        Assoc(b.licence.goods, [ReportedGood(r, b.reference.value, ids)], rest);
      } else {
        assert [] + rest == rest;
      }
    }
  }

  lemma {:induction false} ReadBlockAppend(a: Block, c: Block, b: Building, ids: IdMaps)
    ensures ReadBlock(a + c, b, ids) ==
            match ReadBlock(a, b, ids)
            case None => None
            case Some(b') => ReadBlock(c, b', ids)
  {
    if a == [] {
      assert a + c == c;
    } else {
      assert (a + c)[1..] == a[1..] + c;
      match ReadLine(a[0], b, ids) {
        case None =>
        case Some(b') => ReadBlockAppend(a[1..], c, b', ids);
      }
    }
  }

  lemma ReadOne(line: string, b: Building, ids: IdMaps)
    ensures ReadBlock([line], b, ids) == ReadLine(line, b, ids)
  {
    assert [line][1..] == [];
    match ReadLine(line, b, ids) {
      case None =>
      case Some(b') => assert ReadBlock([], b', ids) == Some(b');
    }
  }

  lemma ReadHead(head: Fields, reference: Option<string>, ids: IdMaps)
    requires HeadOk(head)
    ensures ReadLine(Body(head), Building(reference, EMPTY_LICENCE), ids) ==
            Some(Building(Some(head[3]),
                          LicencePayload(LicenceId(head[3], ids), StatusAction(head[4]), Completion(head), [])))
  {
    WordsArePlain();
    WordInLine(0, head, LICENCE_USAGE);
    WordInLine(0, head, END);
    HasOwnType(head);
    SplitJoin(head, FIELD_SEP);
  }

  lemma ReadTail(tail: Fields, b: Building, ids: IdMaps)
    requires TailOk(tail)
    ensures ReadLine(Body(tail), b, ids) == Some(b)
  {
    WordsArePlain();
    WordInLine(0, tail, END);
    HasOwnType(tail);
    SplitJoin(tail, FIELD_SEP);
  }

  lemma ReadWholeBlock(b: UsageBlock, reference: Option<string>, ids: IdMaps)
    requires BlockOk(b)
    ensures ReadBlock(BlockBodies(b), Building(reference, EMPTY_LICENCE), ids) ==
            Some(Building(Some(Licence(b)), Reported(b, ids)))
  {
    BlockLines(b, 0, "");
    var start := Building(reference, EMPTY_LICENCE);
    ReadHead(b.head, reference, ids);
    ReadOne(Body(b.head), start, ids);
    var b1 := ReadLine(Body(b.head), start, ids).value;
    ReadDetails(b.details, b1, ids);
    var goods := ReportedGoods(b.details, Licence(b), ids);
    assert [] + goods == goods;
    var b2 := ReadBlock(Bodies(b.details), b1, ids).value;
    ReadTail(b.tail, b2, ids);
    ReadOne(Body(b.tail), b2, ids);
    hide ReadLine;
    hide ReadBlock;
    ReadBlockAppend([Body(b.head)], Bodies(b.details), start, ids);
    ReadBlockAppend([Body(b.head)] + Bodies(b.details), [Body(b.tail)], start, ids);
  }

  lemma {:induction false} PayloadOfBlocks(blocks: seq<UsageBlock>, reference: Option<string>, ids: IdMaps)
    requires BlocksOk(blocks)
    ensures var r := ReadBlocks(AllBlockBodies(blocks), reference, ids);
            r.Some? && Opened(r.value) == OpenReports(blocks, ids)
  {
    hide ReadBlock, HeadOk, TailOk, DetailOk, BlockBodies, Reported;
    if blocks != [] {
      assert BlockOk(blocks[0]);
      ReadWholeBlock(blocks[0], reference, ids);
      PayloadOfBlocks(blocks[1..], Some(Licence(blocks[0])), ids);
      assert AllBlockBodies(blocks)[1..] == AllBlockBodies(blocks[1..]);
      var rest := ReadBlocks(AllBlockBodies(blocks[1..]), Some(Licence(blocks[0])), ids).value;
      OpenedCons(Reported(blocks[0], ids), rest);
      OpenReportsPush(blocks, ids);
    }
  }

  lemma OpenedCons(first: LicencePayload, rest: seq<LicencePayload>)
    ensures Opened([first] + rest) == Opened([first]) + Opened(rest)
  {
    assert ([first] + rest)[1..] == rest && [first][1..] == [];
  }

  lemma OpenReportsPush(blocks: seq<UsageBlock>, ids: IdMaps)
    requires blocks != [] && BlocksOk(blocks)
    ensures OpenReports(blocks, ids) == Opened([Reported(blocks[0], ids)]) + OpenReports(blocks[1..], ids)
  {
    assert BlockOk(blocks[0]) && |blocks[0].head| > 4;
    OpenExactly(blocks[0], ids);
    OneOpened(Reported(blocks[0], ids));
    hide Reported, BlockOk, Opened;
  }

  lemma OpenExactly(b: UsageBlock, ids: IdMaps)
    requires BlockOk(b)
    ensures Reported(b, ids).action == Open <==> b.head[4] == "O"
  {
    hide DetailOk, TailOk, ReportedGoods, LicenceId, Completion;
  }

  lemma OneOpened(licence: LicencePayload)
    ensures Opened([licence]) == if licence.action == Open then [licence] else []
  {
    assert [licence][1..] == [];
  }

  /**
   No double counting. Splitting a well-formed file and building LITE's payload from it lists
   exactly LITE's blocks with status `O`, in file order, each with one good per goods line of
   that block. Blocks with any other status, and SPIRE's blocks, are not reported.
   */
  lemma PayloadListsOpenLiteBlocks(f: UsageFile, pad: string, rest: seq<string>, liteLicences: set<string>,
                                   usage: Option<nat>, rows: set<TransactionRow>, ids: IdMaps)
    requires WellFormed(f) && PadOk(pad) && AllFree(rest, LINE_SEP)
    ensures var split := ResultOf(SplitFile(FileText(f, pad, rest), liteLicences, usage, rows));
            split.Blocks? && Payload(split.lite, ids) == Some(OpenReports(Side(f.blocks, liteLicences, true), ids))
  {
    SplitIsPartition(f, pad, rest, liteLicences, usage, rows);
    PayloadOfBlocks(Side(f.blocks, liteLicences, true), None, ids);
  }
}
