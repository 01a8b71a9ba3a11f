/**
 What becomes of a licence file that is not written: refused with its errors, or another exception.
 */
module LicenceFileOutcome {
  import opened Text
  import opened ChiefProtocol
  import opened LicenceFiles
  import opened LicenceFileFacts
  import opened LicenceFileValidity
  import V = EdifactValidator

  // ---------------------------------------------------------------- records on which the validator raises

  /** A trader whose dates are given and not both numbers: `int` raises. */
  predicate Unreadable(r: Record) {
    r.Trader? && V.DatesReversed(r.traderStart, r.traderEnd).None?
  }

  predicate AllReadable(records: seq<Record>) {
    forall k :: 0 <= k < |records| ==> !Unreadable(records[k])
  }

  predicate NoTrader(records: seq<Record>) {
    forall k :: 0 <= k < |records| ==> !records[k].Trader?
  }

  lemma ReadableAppend(a: seq<Record>, b: seq<Record>)
    ensures AllReadable(a + b) <==> AllReadable(a) && AllReadable(b)
  {
    hide Unreadable;
    if AllReadable(a + b) {
      forall k | 0 <= k < |a|
        ensures !Unreadable(a[k])
      {
        assert (a + b)[k] == a[k];
      }
      forall k | 0 <= k < |b|
        ensures !Unreadable(b[k])
      {
        assert (a + b)[|a| + k] == b[k];
      }
    }
  }

  lemma HeaderIsRead(r: Record, n: nat)
    requires r.FileHeader?
    ensures V.HeaderErrors(Values(n, r)).Some?
  {
    DecimalRoundTrip(n);
    hide ParseInt, Decimal, V.ValidDataIdentifier, V.Check;
  }

  lemma TraderIsRead(r: Record, n: nat, system: V.System, postcodeOk: string -> bool)
    requires r.Trader?
    ensures V.TraderErrors(Values(n, r), system, postcodeOk).None? <==> Unreadable(r)
  {
    hide V.LongLines, V.DatesReversed, Decimal, Shown, V.Check;
  }

  lemma LicenceIsRead(r: Record, n: nat, dataId: string, system: V.System)
    requires r.Licence?
    ensures V.LicenceErrors(dataId, Values(n, r), system).Some?
  {
    hide V.ValidAction, V.ValidLicenceType, Decimal, Shown, V.Check;
  }

  /** The validator raises on a printed record exactly when it is an unreadable trader. */
  lemma LineRaisesExactly(r: Record, n: nat, dataId: string, system: V.System, postcodeOk: string -> bool)
    ensures V.LineErrors(dataId, Values(n, r), system, postcodeOk).None? <==> Unreadable(r)
  {
    hide V.HeaderErrors, V.LicenceErrors, V.TraderErrors, V.ForeignTraderErrors, V.ProductErrors, V.CountryErrors,
         Shown, Decimal, V.DatesReversed;
    match r {
      case FileHeader(_, _, _, _, _, _) => HeaderIsRead(r, n);
      case Licence(_, _, _, _, _, _, _) => LicenceIsRead(r, n, dataId, system);
      case Trader(_, _, _, _, _, _, _, _, _, _) => TraderIsRead(r, n, system, postcodeOk);
      case _ =>
    }
  }

  lemma {:induction false} FileRaisesExactly(records: seq<Record>, n: nat, dataId: string, system: V.System, postcodeOk: string -> bool)
    requires AllClean(records)
    ensures V.FileErrors(LinesFrom(records, n) + [""], dataId, system, postcodeOk).Some? <==> AllReadable(records)
  {
    hide V.LineErrors, V.FileErrors, V.NextDataId, FormatLine, Split, Clean, Values, Unreadable;
    if records == [] {
      LastLineEmpty(dataId, system, postcodeOk);
    } else {
      var r := records[0];
      assert Clean(r);
      LineSplitsBack(n, r);
      LineRaisesExactly(r, n, dataId, system, postcodeOk);
      DataIdAfter(r, n, dataId);
      FileRaisesExactly(records[1..], n + 1, if r.FileHeader? then r.dataId else dataId, system, postcodeOk);
      FirstLine(FormatLine(n, r), LinesFrom(records[1..], n + 1), dataId, system, postcodeOk);
      ReadableAppend([r], records[1..]);
      OneReadable(r);
      assert [r] + records[1..] == records;
    }
  }

  lemma OneReadable(r: Record)
    ensures AllReadable([r]) <==> !Unreadable(r)
  {
    assert [r][0] == r;
  }

  // ---------------------------------------------------------------- payloads on which it raises

  lemma {:induction false} CountriesNoTrader(countries: seq<string>)
    ensures NoTrader(CountryRecords(countries))
  {
    if countries != [] {
      CountriesNoTrader(countries[1..]);
    }
  }

  lemma {:induction false} GoodsNoTrader(goods: seq<Good>, line: nat)
    requires GoodRecords(goods, line).Some?
    ensures NoTrader(GoodRecords(goods, line).value)
  {
    if goods != [] {
      GoodsNoTrader(goods[1..], line + 1);
    }
  }

  lemma {:induction false} IcmsGoodsNoTrader(licenceType: string, goods: seq<IcmsGood>, line: nat)
    requires GetGoods(licenceType, goods, line).Some?
    ensures NoTrader(GetGoods(licenceType, goods, line).value)
  {
    if goods != [] {
      IcmsGoodsNoTrader(licenceType, goods[1..], line + 1);
    }
  }

  /** One trader among records that are none. */
  lemma OneTrader(r: Record, rest: seq<Record>)
    requires NoTrader(rest)
    ensures AllReadable([r] + rest) <==> !Unreadable(r)
  {
    hide V.DatesReversed;
    ReadableAppend([r], rest);
    OneReadable(r);
  }

  lemma DetailsReadable(d: LiteData)
    requires Details(d).Some?
    ensures d.startDate.Some? && d.endDate.Some?
    ensures AllReadable(Details(d).value) <==> V.DatesReversed(Remove(d.startDate.value, '-'), Remove(d.endDate.value, '-')).Some?
  {
    hide V.DatesReversed, Remove, CountryRecords, GoodRecords;
    CountriesNoTrader(d.countries);
    if IsStandard(d.licenceType) {
      GoodsNoTrader(d.goods, 1);
    }
    var trader := TraderRecord(d).value;
    var rest := Destinations(d) + EndUserRecords(d.endUser) + [PROVISOS] + GoodsOf(d).value
                + (if IsOpen(d.licenceType) then [OPEN_GOODS] else []);
    assert NoTrader(rest);
    assert Details(d).value == [trader] + rest;
    OneTrader(trader, rest);
  }

  lemma BlockReadable(header: Record, details: seq<Record>)
    requires !header.Trader?
    ensures AllReadable([header] + details + [End(LICENCE, None)]) <==> AllReadable(details)
  {
    hide V.DatesReversed;
    ReadableAppend([header] + details, [End(LICENCE, None)]);
    ReadableAppend([header], details);
    OneReadable(header);
    OneReadable(End(LICENCE, None));
  }

  predicate DatesReadable(p: LitePayload) {
    p.action == Cancel
    || (p.data.startDate.Some? && p.data.endDate.Some?
        && V.DatesReversed(Remove(p.data.startDate.value, '-'), Remove(p.data.endDate.value, '-')).Some?)
  }

  predicate IcmsDatesReadable(p: IcmsPayload) {
    V.DatesReversed(Remove(p.data.traderStart, '-'), Remove(p.data.traderEnd, '-')).Some?
  }

  lemma LiteBlockReadable(action: Action, p: LitePayload)
    requires LiteBlock(action, p.reference, p.data).Some? && action == (if p.action == Update then Insert else p.action)
    ensures AllReadable(LiteBlock(action, p.reference, p.data).value) <==> DatesReadable(p)
  {
    if action != Cancel {
      DetailsReadable(p.data);
    }
    hide Details, TransactionReference, Date, Unreadable, V.DatesReversed, Remove;
    var block := LiteBlock(action, p.reference, p.data).value;
    BlockReadable(block[0], if action == Cancel then [] else Details(p.data).value);
  }

  lemma CancelReadable(p: LitePayload, history: seq<LitePayload>)
    requires CancelOldBlock(p, history).Some?
    ensures AllReadable(CancelOldBlock(p, history).value)
  {
  }

  lemma LiteReadable(p: LitePayload, history: seq<LitePayload>)
    requires GenerateLinesForLicence(p, history).Some?
    ensures AllReadable(GenerateLinesForLicence(p, history).value) <==> DatesReadable(p)
  {
    LiteBlockReadable(if p.action == Update then Insert else p.action, p);
    if p.action == Update {
      CancelReadable(p, history);
      ReadableAppend(CancelOldBlock(p, history).value, LiteBlock(Insert, p.reference, p.data).value);
    }
    hide AllReadable, LiteBlock, CancelOldBlock;
  }

  lemma IcmsReadable(p: IcmsPayload)
    requires GenerateLinesForIcmsLicence(p).Some?
    ensures AllReadable(GenerateLinesForIcmsLicence(p).value) <==> IcmsDatesReadable(p)
  {
    hide V.DatesReversed, Remove, GetGoods, AllReadable, IcmsDetails, IcmsRestrictions, IcmsCountry, NoTrader, ChiefType;
    var d := p.data;
    IcmsBlock(p);
    IcmsParts(d);
    IcmsGoodsNoTrader(d.licenceType, d.goods, 1);
    IcmsTrader(d);
    BlockReadable(GenerateLinesForIcmsLicence(p).value[0], IcmsDetails(d).value);
    var rest := IcmsCountry(d) + [IcmsRestrictions(d)] + GetGoods(d.licenceType, d.goods, 1).value;
    IcmsRestNoTrader(d);
    assert IcmsDetails(d).value == [IcmsDetails(d).value[0]] + rest;
    OneTrader(IcmsDetails(d).value[0], rest);
  }

  lemma IcmsTrader(d: IcmsData)
    requires IcmsDetails(d).Some?
    ensures var r := IcmsDetails(d).value[0];
            r.Trader? && r.traderStart == Remove(d.traderStart, '-') && r.traderEnd == Remove(d.traderEnd, '-')
  {
    hide Remove, GetGoods;
  }

  lemma IcmsRestNoTrader(d: IcmsData)
    requires GetGoods(d.licenceType, d.goods, 1).Some? && NoTrader(GetGoods(d.licenceType, d.goods, 1).value)
    ensures NoTrader(IcmsCountry(d) + [IcmsRestrictions(d)] + GetGoods(d.licenceType, d.goods, 1).value)
  {
    hide GetGoods;
  }

  // ---------------------------------------------------------------- the whole file

  predicate PayloadReadable(licences: Licences, k: nat)
    requires k < Size(licences)
  {
    match licences
    case FromLite(payloads, _) => DatesReadable(payloads[k])
    case FromIcms(payloads) => IcmsDatesReadable(payloads[k])
  }

  predicate ReadableFrom(licences: Licences, k: nat) {
    forall j :: k <= j < Size(licences) ==> PayloadReadable(licences, j)
  }

  lemma {:induction false} RecordsReadable(licences: Licences, k: nat)
    requires k <= Size(licences) && RecordsFrom(licences, k).Some?
    ensures AllReadable(RecordsFrom(licences, k).value) <==> ReadableFrom(licences, k)
    decreases Size(licences) - k
  {
    hide AllReadable, PayloadReadable, GenerateLinesForLicence, GenerateLinesForIcmsLicence;
    if k < Size(licences) {
      PayloadIsReadable(licences, k);
      RecordsReadable(licences, k + 1);
      ReadableAppend(LinesOf(licences, k).value, RecordsFrom(licences, k + 1).value);
    } else {
      NothingUnreadable();
    }
  }

  lemma NothingUnreadable()
    ensures AllReadable([])
  {
  }

  lemma PayloadIsReadable(licences: Licences, k: nat)
    requires k < Size(licences) && LinesOf(licences, k).Some?
    ensures AllReadable(LinesOf(licences, k).value) <==> PayloadReadable(licences, k)
  {
    hide AllReadable, DatesReadable, IcmsDatesReadable, GenerateLinesForLicence, GenerateLinesForIcmsLicence;
    match licences {
      case FromLite(payloads, history) => LiteReadable(payloads[k], history);
      case FromIcms(payloads) => IcmsReadable(payloads[k]);
    }
  }

  /** Numbering leaves the traders as they are. */
  lemma {:induction false} SizedReadable(blocks: seq<seq<Record>>)
    requires AreBlocks(blocks)
    ensures AllReadable(Concat(SizedBlocks(blocks))) <==> AllReadable(Concat(blocks))
  {
    assert blocks != [] ==> IsBlock(blocks[0]) && |blocks[0]| >= 1;
    hide AllReadable, IsBlock, Sized;
    if blocks != [] {
      OneSizedReadable(blocks[0]);
      SizedReadable(blocks[1..]);
      assert SizedBlocks(blocks)[1..] == SizedBlocks(blocks[1..]);
      ReadableAppend(blocks[0], Concat(blocks[1..]));
      ReadableAppend(Sized(blocks[0]), Concat(SizedBlocks(blocks[1..])));
    }
  }

  lemma OneSizedReadable(b: seq<Record>)
    requires IsBlock(b)
    ensures AllReadable(Sized(b)) <==> AllReadable(b)
  {
    hide V.DatesReversed, AllReadable;
    var front := b[..|b| - 1];
    assert b == front + [End(LICENCE, None)];
    OneReadable(End(LICENCE, None));
    OneReadable(End(LICENCE, Some(|b|)));
    ReadableAppend(front, [End(LICENCE, None)]);
    ReadableAppend(front, [End(LICENCE, Some(|b|))]);
  }

  lemma NumberedReadable(licences: Licences, runNumber: nat, timeStamp: string, system: V.System)
    requires AllGenerate(licences)
    ensures AllReadable(NumberedRecords(licences, runNumber, timeStamp, system)) <==> ReadableFrom(licences, 0)
  {
    hide *;
    var header := Header(SourceName(system), runNumber, timeStamp);
    var blocks := BlocksFrom(licences, 0);
    NumberedRecordsAre(licences, runNumber, timeStamp, system);
    RecordsFromBlocks(licences, 0);
    RecordsReadable(licences, 0);
    SizedReadable(blocks);
    var middle := Concat(SizedBlocks(blocks));
    HeaderIs(runNumber, timeStamp, system);
    NeitherIsTrader(header, TransactionsFrom(licences, 0));
    ReadableAppend([header] + middle, [FileTrailer(TransactionsFrom(licences, 0))]);
    ReadableAppend([header], middle);
  }

  lemma NeitherIsTrader(header: Record, count: nat)
    requires header.FileHeader?
    ensures AllReadable([header]) && AllReadable([FileTrailer(count)])
  {
  }

  lemma RaisedWhenUnread(licences: Licences, runNumber: nat, timeStamp: string, system: V.System, postcodeOk: string -> bool, text: string)
    requires AllGenerate(licences)
    requires FormatLines(LicenceRecords(licences, runNumber, timeStamp, system)) == Some(text)
    ensures Edifact(licences, runNumber, timeStamp, system, postcodeOk).Raised? <==>
            V.FileErrors(Split(text, LINE_SEP), "", system, postcodeOk).None?
  {
    hide FormatLines, LicenceRecords, V.FileErrors, Split;
  }

  /**
   The three outcomes, for all payload lists on which generation succeeds and whose texts hold no
   separator: the file is written exactly when every payload obeys the rules; the validation itself
   raises exactly when some payload that is not cancelled has a date that is no number; and in every
   other case the file is refused with the list of its errors.
   */
  lemma FileOutcomeExactly(licences: Licences, runNumber: nat, timeStamp: string, system: V.System, postcodeOk: string -> bool)
    requires SystemOf(licences, system) && AllGenerate(licences) && AllSafe(licences) && Safe(timeStamp)
    ensures Edifact(licences, runNumber, timeStamp, system, postcodeOk).Written? <==> AllOkFrom(licences, 0, postcodeOk)
    ensures Edifact(licences, runNumber, timeStamp, system, postcodeOk).Raised? <==> !ReadableFrom(licences, 0)
    ensures Edifact(licences, runNumber, timeStamp, system, postcodeOk).Invalid? <==>
            !AllOkFrom(licences, 0, postcodeOk) && ReadableFrom(licences, 0)
  {
    hide *;
    WrittenExactlyWhenPayloadsOk(licences, runNumber, timeStamp, system, postcodeOk);
    FileTextIs(licences, runNumber, timeStamp, system, postcodeOk);
    var records := NumberedRecords(licences, runNumber, timeStamp, system);
    FileRaisesExactly(records, 1, "", system, postcodeOk);
    NumberedReadable(licences, runNumber, timeStamp, system);
    RaisedWhenUnread(licences, runNumber, timeStamp, system, postcodeOk, Join(LinesFrom(records, 1), LINE_SEP) + [LINE_SEP]);
  }
}
