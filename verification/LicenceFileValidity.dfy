/**
 Exactly which licence payloads make a valid file, and what every generated file contains.
 */
module LicenceFileValidity {
  import opened Text
  import opened ChiefProtocol
  import opened LicenceFiles
  import opened LicenceFileFacts
  import V = EdifactValidator

  // ---------------------------------------------------------------- ICMS payloads without separators

  predicate SafeIcmsGood(g: IcmsGood) {
    Safe(g.commodity) && Safe(g.description) && Safe(g.controlledBy) && Safe(g.quantity)
  }

  predicate SafeIcms(p: IcmsPayload) {
    var d := p.data;
    && Safe(d.caseReference) && Safe(d.licenceReference) && Safe(d.startDate) && Safe(d.endDate)
    && SafeOption(d.eori) && Safe(d.traderStart) && Safe(d.traderEnd) && SafeOption(d.name)
    && SafeOption(d.address1) && SafeOption(d.address2) && SafeOption(d.address3) && SafeOption(d.address4)
    && SafeOption(d.address5) && SafeOption(d.postcode)
    && Safe(d.countryGroup) && Safe(d.countryCode) && Free(d.restrictions, FIELD_SEP)
    && forall k :: 0 <= k < |d.goods| ==> SafeIcmsGood(d.goods[k])
  }

  lemma {:induction false} LinesReplaced(s: string)
    requires Free(s, FIELD_SEP)
    ensures Safe(ReplaceChar(s, '\n', '|'))
  {
    if s != "" {
      LinesReplaced(s[1..]);
    }
  }

  lemma {:induction false} StripLeftSafe(s: string)
    requires Safe(s)
    ensures Safe(StripLeft(s))
  {
    if s != "" && IsSpace(s[0]) {
      StripLeftSafe(s[1..]);
    }
  }

  lemma {:induction false} StripRightSafe(s: string)
    requires Safe(s)
    ensures Safe(StripRight(s))
  {
    if s != "" && IsSpace(s[|s| - 1]) {
      StripRightSafe(s[..|s| - 1]);
    }
  }

  lemma IcmsGoodClean(licenceType: string, line: nat, g: IcmsGood)
    requires SafeIcmsGood(g) && IcmsGoodRecord(licenceType, line, g).Some?
    ensures Clean(IcmsGoodRecord(licenceType, line, g).value)
  {
    NumberSafe(line);
    var r := IcmsGoodRecord(licenceType, line, g).value;
    if r.quantityUnit.Some? {
      NumberSafe(ParseInt(g.unit).value);
    }
    hide Decimal, ThreeDigits, ParseInt;
    DataLineClean(r);
  }

  lemma DataLineClean(r: Record)
    requires r.DataLine? && Safe(Decimal(r.lineNum)) && SafeOption(r.commodity) && SafeOption(r.description)
    requires Safe(r.controlledBy) && SafeOption(r.quantityUnit) && SafeOption(r.quantity)
    ensures Clean(r)
  {
    hide Decimal;
  }

  lemma {:induction false} IcmsGoodsClean(licenceType: string, goods: seq<IcmsGood>, line: nat)
    requires (forall k :: 0 <= k < |goods| ==> SafeIcmsGood(goods[k])) && GetGoods(licenceType, goods, line).Some?
    ensures AllClean(GetGoods(licenceType, goods, line).value)
  {
    hide Clean, SafeIcmsGood, IcmsGoodRecord;
    if goods != [] {
      assert SafeIcmsGood(goods[0]);
      IcmsGoodClean(licenceType, line, goods[0]);
      IcmsGoodsClean(licenceType, goods[1..], line + 1);
    }
  }

  lemma IcmsTraderClean(p: IcmsPayload)
    requires SafeIcms(p) && IcmsDetails(p.data).Some?
    ensures Clean(IcmsDetails(p.data).value[0])
  {
    var d := p.data;
    RemoveSafe(d.traderStart, '-');
    RemoveSafe(d.traderEnd, '-');
    hide GetGoods, Remove, Strip, ReplaceChar, Shown, Free, Clean;
    AnyTraderClean(d.eori, Remove(d.traderStart, '-'), Remove(d.traderEnd, '-'), d.name,
                   d.address1, d.address2, d.address3, d.address4, d.address5, d.postcode);
  }

  lemma AnyTraderClean(rpa: Option<string>, start: string, end: string, name: Option<string>, a1: Option<string>, a2: Option<string>,
                       a3: Option<string>, a4: Option<string>, a5: Option<string>, postcode: Option<string>)
    requires SafeOption(rpa) && Safe(start) && Safe(end) && SafeOption(name) && SafeOption(a1) && SafeOption(a2)
    requires SafeOption(a3) && SafeOption(a4) && SafeOption(a5) && SafeOption(postcode)
    ensures Clean(Trader(rpa, start, end, name, a1, a2, a3, a4, a5, postcode))
  {
    ShownSafe(rpa);
    ShownSafe(name);
    ShownSafe(a1);
    ShownSafe(a2);
    ShownSafe(a3);
    ShownSafe(a4);
    ShownSafe(a5);
    ShownSafe(postcode);
    NothingSafe();
    var r := Trader(rpa, start, end, name, a1, a2, a3, a4, a5, postcode);
    hide Shown, Safe, SafeOption, Clean;
    forall k | 0 <= k < |Attributes(r)|
      ensures Safe(Attributes(r)[k])
    {
    }
    SafeIsClean(r);
  }

  lemma SafeIsClean(r: Record)
    requires forall k :: 0 <= k < |Attributes(r)| ==> Safe(Attributes(r)[k])
    ensures Clean(r)
  {
    hide Attributes, Free;
  }

  lemma ShownSafe(v: Option<string>)
    requires SafeOption(v)
    ensures Safe(Shown(v))
  {
  }

  lemma NothingSafe()
    ensures Safe("")
  {
  }

  /** The three parts of an ICMS licence's details after its trader. */
  function IcmsCountry(d: IcmsData): seq<Record> {
    if d.countryGroup != "" then [Country(None, Some(d.countryGroup), "O")]
    else if d.countryCode != "" then [Country(Some(d.countryCode), None, "O")]
    else []
  }

  function IcmsRestrictions(d: IcmsData): Record {
    Restrictions(Strip(ReplaceChar(d.restrictions, '\n', '|')))
  }

  lemma IcmsParts(d: IcmsData)
    requires IcmsDetails(d).Some?
    ensures GetGoods(d.licenceType, d.goods, 1).Some?
    ensures IcmsDetails(d).value[0].Trader?
    ensures IcmsDetails(d).value ==
            [IcmsDetails(d).value[0]] + IcmsCountry(d) + [IcmsRestrictions(d)] + GetGoods(d.licenceType, d.goods, 1).value
  {
  }

  lemma IcmsDetailsClean(p: IcmsPayload)
    requires SafeIcms(p) && IcmsDetails(p.data).Some?
    ensures AllClean(IcmsDetails(p.data).value)
  {
    var d := p.data;
    LinesReplaced(d.restrictions);
    StripLeftSafe(ReplaceChar(d.restrictions, '\n', '|'));
    StripRightSafe(StripLeft(ReplaceChar(d.restrictions, '\n', '|')));
    RestrictionsClean(IcmsRestrictions(d).text);
    IcmsTraderClean(p);
    IcmsParts(d);
    IcmsGoodsClean(d.licenceType, d.goods, 1);
    IcmsCountryClean(d);
    hide Clean, IcmsDetails, GetGoods, IcmsCountry, IcmsRestrictions, SafeIcms;
    var trader := [IcmsDetails(d).value[0]];
    AllCleanAppend(trader, IcmsCountry(d));
    AllCleanAppend(trader + IcmsCountry(d), [IcmsRestrictions(d)]);
    AllCleanAppend(trader + IcmsCountry(d) + [IcmsRestrictions(d)], GetGoods(d.licenceType, d.goods, 1).value);
  }

  lemma IcmsCountryClean(d: IcmsData)
    requires Safe(d.countryGroup) && Safe(d.countryCode)
    ensures AllClean(IcmsCountry(d))
  {
  }

  lemma IcmsClean(p: IcmsPayload)
    requires SafeIcms(p) && GenerateLinesForIcmsLicence(p).Some?
    ensures AllClean(GenerateLinesForIcmsLicence(p).value)
  {
    IcmsDetailsClean(p);
    IcmsHeaderClean(p);
    FixedRecordsClean();
    hide Clean, SafeIcms, IcmsDetails;
  }

  lemma IcmsHeaderClean(p: IcmsPayload)
    requires SafeIcms(p) && GenerateLinesForIcmsLicence(p).Some?
    ensures Clean(GenerateLinesForIcmsLicence(p).value[0])
  {
    var d := p.data;
    RemoveSafe(d.startDate, '-');
    RemoveSafe(d.endDate, '-');
    CodesSafe(p.action, d.licenceType);
    hide IcmsDetails, Remove, Clean, ChiefType, ActionText, Shown;
    AnyLicenceClean(d.caseReference, ActionText(p.action), d.licenceReference, ChiefType(d.licenceType), "I",
                    Remove(d.startDate, '-'), Remove(d.endDate, '-'));
  }

  lemma CodesSafe(action: Action, licenceType: string)
    ensures Safe(ActionText(action)) && SafeOption(ChiefType(licenceType))
  {
  }

  lemma AnyLicenceClean(transaction: string, action: string, reference: string, licenceType: Option<string>, usage: string,
                        start: string, end: string)
    requires Safe(transaction) && Safe(action) && Safe(reference) && SafeOption(licenceType) && Safe(usage) && Safe(start) && Safe(end)
    ensures Clean(Licence(transaction, action, reference, licenceType, usage, start, end))
  {
    hide Shown;
  }

  // ---------------------------------------------------------------- lists of records that pass

  /** Every record passes inside a licenceData file. */
  predicate Passes(records: seq<Record>, system: V.System, postcodeOk: string -> bool) {
    forall k :: 0 <= k < |records| ==> RecordPasses(records[k], system, postcodeOk)
  }

  predicate RecordPasses(r: Record, system: V.System, postcodeOk: string -> bool) {
    Conforms(r, 2, "licenceData", system, postcodeOk)
  }

  lemma PassesAppend(a: seq<Record>, b: seq<Record>, system: V.System, postcodeOk: string -> bool)
    ensures Passes(a + b, system, postcodeOk) <==> Passes(a, system, postcodeOk) && Passes(b, system, postcodeOk)
  {
    hide RecordPasses;
    if Passes(a + b, system, postcodeOk) {
      forall k | 0 <= k < |a|
        ensures RecordPasses(a[k], system, postcodeOk)
      {
        assert (a + b)[k] == a[k];
      }
      forall k | 0 <= k < |b|
        ensures RecordPasses(b[k], system, postcodeOk)
      {
        assert (a + b)[|a| + k] == b[k];
      }
    }
  }

  lemma PassesOne(r: Record, system: V.System, postcodeOk: string -> bool)
    ensures Passes([r], system, postcodeOk) <==> RecordPasses(r, system, postcodeOk)
  {
    hide RecordPasses;
    assert [r][0] == r;
  }

  lemma BlockPasses(header: Option<Record>, details: Option<seq<Record>>, system: V.System, postcodeOk: string -> bool)
    requires Block(header, details).Some?
    ensures Passes(Block(header, details).value, system, postcodeOk) <==>
            RecordPasses(header.value, system, postcodeOk) && Passes(details.value, system, postcodeOk)
  {
    EndPasses(system, postcodeOk);
    hide RecordPasses;
    PassesAppend([header.value] + details.value, [End(LICENCE, None)], system, postcodeOk);
    PassesAppend([header.value], details.value, system, postcodeOk);
    PassesOne(header.value, system, postcodeOk);
    PassesOne(End(LICENCE, None), system, postcodeOk);
  }

  lemma EndPasses(system: V.System, postcodeOk: string -> bool)
    ensures RecordPasses(End(LICENCE, None), system, postcodeOk)
    ensures forall n :: RecordPasses(End(LICENCE, Some(n)), system, postcodeOk)
  {
  }

  // ---------------------------------------------------------------- LITE payloads that pass

  predicate OrganisationOk(o: Organisation, postcodeOk: string -> bool) {
    && 12 <= |o.eori| <= 15
    && |Shown(o.name)| <= 80
    && ShortLines(Shown(o.address1), o.address2, o.address3, o.address4, o.address5)
    && postcodeOk(Shown(o.postcode))
  }

  predicate EndUserOk(u: EndUser) {
    && |Shown(u.name)| <= 80
    && ShortLines(Shown(u.line1), u.line2, u.line3, u.line4, u.line5)
    && |u.postcode| <= 8 && |CountryId(u.country)| <= 2
  }

  predicate GoodsNamed(goods: seq<Good>) {
    forall k :: 0 <= k < |goods| ==> Shown(goods[k].name) != ""
  }

  /** The rules DES236 puts on a licence's details, on the payload. */
  predicate LiteDetailsOk(d: LiteData, postcodeOk: string -> bool) {
    && OrganisationOk(d.organisation, postcodeOk)
    && d.startDate.Some? && d.endDate.Some? && DatesOk(Remove(d.startDate.value, '-'), Remove(d.endDate.value, '-'))
    && (d.endUser.Some? ==> EndUserOk(d.endUser.value))
    && (IsStandard(d.licenceType) ==> GoodsNamed(d.goods))
  }

  /** A payload CHIEF's rules allow: a known type and, unless it cancels, details within the limits. */
  predicate LiteOk(p: LitePayload, postcodeOk: string -> bool) {
    ChiefType(p.data.licenceType).Some? && (p.action != Cancel ==> LiteDetailsOk(p.data, postcodeOk))
  }

  lemma TypesAreValid(licenceType: string)
    ensures V.ValidLicenceType(Shown(ChiefType(licenceType))) <==> ChiefType(licenceType).Some?
  {
  }

  lemma {:induction false} CountriesPass(countries: seq<string>, system: V.System, postcodeOk: string -> bool)
    ensures Passes(CountryRecords(countries), system, postcodeOk)
  {
    if countries != [] {
      CountriesPass(countries[1..], system, postcodeOk);
      PassesAppend([CountryRecords(countries)[0]], CountryRecords(countries[1..]), system, postcodeOk);
    }
  }

  lemma DestinationsPass(d: LiteData, system: V.System, postcodeOk: string -> bool)
    ensures Passes(Destinations(d), system, postcodeOk)
  {
    CountriesPass(d.countries, system, postcodeOk);
  }

  lemma UnitThreeDigits(unit: string)
    requires UnitCode(unit).Some?
    ensures |ThreeDigits(UnitCode(unit).value)| == 3
  {
    assert UnitCode(unit).value < 1000;
    NumberLength(UnitCode(unit).value);
  }

  lemma NumberLength(n: nat)
    requires n < 1000
    ensures |ThreeDigits(n)| == 3
  {
    assert n >= 10 ==> |Decimal(n / 10)| == if n >= 100 then 2 else 1;
  }

  lemma GoodPasses(g: Good, line: nat, postcodeOk: string -> bool)
    requires GoodRecord(g, line).Some?
    ensures RecordPasses(GoodRecord(g, line).value, V.Spire, postcodeOk) <==> Shown(g.name) != ""
  {
    UnitThreeDigits(g.unit);
    hide Decimal, ThreeDigits, UnitCode, Shown;
  }

  lemma {:induction false} GoodsPass(goods: seq<Good>, line: nat, postcodeOk: string -> bool)
    requires GoodRecords(goods, line).Some?
    ensures Passes(GoodRecords(goods, line).value, V.Spire, postcodeOk) <==> GoodsNamed(goods)
  {
    hide RecordPasses, GoodRecord, Shown;
    if goods != [] {
      var first := GoodRecord(goods[0], line).value;
      GoodPasses(goods[0], line, postcodeOk);
      GoodsPass(goods[1..], line + 1, postcodeOk);
      PassesAppend([first], GoodRecords(goods[1..], line + 1).value, V.Spire, postcodeOk);
      PassesOne(first, V.Spire, postcodeOk);
      NamedFirst(goods);
    }
  }

  lemma NamedFirst(goods: seq<Good>)
    requires goods != []
    ensures GoodsNamed(goods) <==> Shown(goods[0].name) != "" && GoodsNamed(goods[1..])
  {
    hide Shown;
    assert forall k :: 0 < k < |goods| ==> goods[k] == goods[1..][k - 1];
  }

  lemma TraderPasses(d: LiteData, postcodeOk: string -> bool)
    requires TraderRecord(d).Some?
    ensures RecordPasses(TraderRecord(d).value, V.Spire, postcodeOk) <==>
            && OrganisationOk(d.organisation, postcodeOk)
            && d.startDate.Some? && d.endDate.Some? && DatesOk(Remove(d.startDate.value, '-'), Remove(d.endDate.value, '-'))
  {
    hide DatesOk, ShortLines, Remove;
  }

  lemma EndUserPasses(d: LiteData, system: V.System, postcodeOk: string -> bool)
    ensures Passes(EndUserRecords(d.endUser), system, postcodeOk) <==> (d.endUser.Some? ==> EndUserOk(d.endUser.value))
  {
    hide ShortLines, CountryId;
    if d.endUser.Some? {
      PassesOne(EndUserRecords(d.endUser)[0], system, postcodeOk);
      assert EndUserRecords(d.endUser) == [EndUserRecords(d.endUser)[0]];
    }
  }

  lemma FixedRecordsPass(system: V.System, postcodeOk: string -> bool)
    ensures RecordPasses(PROVISOS, system, postcodeOk) && RecordPasses(OPEN_GOODS, system, postcodeOk)
  {
  }

  lemma DetailsPass(d: LiteData, postcodeOk: string -> bool)
    requires Details(d).Some?
    ensures Passes(Details(d).value, V.Spire, postcodeOk) <==> LiteDetailsOk(d, postcodeOk)
  {
    TraderPasses(d, postcodeOk);
    DestinationsPass(d, V.Spire, postcodeOk);
    EndUserPasses(d, V.Spire, postcodeOk);
    FixedRecordsPass(V.Spire, postcodeOk);
    if IsStandard(d.licenceType) {
      GoodsPass(d.goods, 1, postcodeOk);
    }
    hide RecordPasses, OrganisationOk, DatesOk, EndUserOk, GoodsNamed, TraderRecord, Destinations, EndUserRecords, GoodRecords, Remove;
    var trader := TraderRecord(d).value;
    var a := [trader] + Destinations(d);
    var b := a + EndUserRecords(d.endUser);
    var c := b + [PROVISOS];
    var e := c + GoodsOf(d).value;
    PassesOne(trader, V.Spire, postcodeOk);
    PassesOne(PROVISOS, V.Spire, postcodeOk);
    PassesOne(OPEN_GOODS, V.Spire, postcodeOk);
    PassesAppend([trader], Destinations(d), V.Spire, postcodeOk);
    PassesAppend(a, EndUserRecords(d.endUser), V.Spire, postcodeOk);
    PassesAppend(b, [PROVISOS], V.Spire, postcodeOk);
    PassesAppend(c, GoodsOf(d).value, V.Spire, postcodeOk);
    PassesAppend(e, if IsOpen(d.licenceType) then [OPEN_GOODS] else [], V.Spire, postcodeOk);
  }

  lemma LiteHeaderPasses(transaction: Option<string>, action: string, reference: string, licenceType: string,
                         start: Option<string>, end: Option<string>, postcodeOk: string -> bool)
    requires V.ValidAction(action)
    requires LicenceRecord(transaction, action, reference, ChiefType(licenceType), "E", start, end).Some?
    ensures RecordPasses(LicenceRecord(transaction, action, reference, ChiefType(licenceType), "E", start, end).value, V.Spire, postcodeOk)
            <==> ChiefType(licenceType).Some?
  {
    TypesAreValid(licenceType);
    hide ChiefType, V.ValidLicenceType;
  }

  lemma LiteBlockPasses(action: Action, reference: string, d: LiteData, postcodeOk: string -> bool)
    requires LiteBlock(action, reference, d).Some?
    ensures Passes(LiteBlock(action, reference, d).value, V.Spire, postcodeOk) <==>
            ChiefType(d.licenceType).Some? && (action != Cancel ==> LiteDetailsOk(d, postcodeOk))
  {
    LiteHeaderPasses(TransactionReference(reference), ActionText(action), reference, d.licenceType,
                     Date(d.startDate), Date(d.endDate), postcodeOk);
    BlockPasses(LicenceRecord(TransactionReference(reference), ActionText(action), reference, ChiefType(d.licenceType), "E",
                              Date(d.startDate), Date(d.endDate)),
                if action == Cancel then Some([]) else Details(d), V.Spire, postcodeOk);
    if action != Cancel {
      DetailsPass(d, postcodeOk);
    }
    hide RecordPasses, LiteDetailsOk, Details, ChiefType;
  }

  /** A LITE payload's records pass exactly when the payload obeys the rules; an update adds none. */
  lemma LitePasses(p: LitePayload, history: seq<LitePayload>, postcodeOk: string -> bool)
    requires GenerateLinesForLicence(p, history).Some?
    ensures Passes(GenerateLinesForLicence(p, history).value, V.Spire, postcodeOk) <==> LiteOk(p, postcodeOk)
  {
    LiteBlockPasses(if p.action == Update then Insert else p.action, p.reference, p.data, postcodeOk);
    if p.action == Update {
      var previous := PreviousPayload(history, p.oldReference).value;
      var header := LicenceRecord(TransactionReference(p.oldReference), "cancel", p.oldReference, ChiefType(p.data.licenceType), "E",
                                  Date(previous.startDate), Date(previous.endDate));
      LiteHeaderPasses(TransactionReference(p.oldReference), "cancel", p.oldReference, p.data.licenceType,
                       Date(previous.startDate), Date(previous.endDate), postcodeOk);
      BlockPasses(header, Some([]), V.Spire, postcodeOk);
      assert Passes([], V.Spire, postcodeOk);
      PassesAppend(CancelOldBlock(p, history).value, LiteBlock(Insert, p.reference, p.data).value, V.Spire, postcodeOk);
    }
    hide RecordPasses, LiteDetailsOk, Details, ChiefType;
  }

  // ---------------------------------------------------------------- ICMS payloads that pass

  /** A good as its licence type prints it: controlled openly, or described and under a known control. */
  predicate IcmsGoodOk(licenceType: string, g: IcmsGood) {
    || (licenceType != "SAN" && licenceType != "SIL")
    || g.controlledBy == "O"
    || (V.ValidControl(g.controlledBy) && (if licenceType == "SAN" then g.commodity else g.description) != "")
  }

  predicate IcmsGoodsOk(licenceType: string, goods: seq<IcmsGood>) {
    forall k :: 0 <= k < |goods| ==> IcmsGoodOk(licenceType, goods[k])
  }

  predicate IcmsOk(p: IcmsPayload, postcodeOk: string -> bool) {
    var d := p.data;
    && Shown(d.eori) != ""
    && DatesOk(Remove(d.traderStart, '-'), Remove(d.traderEnd, '-'))
    && |Shown(d.name)| <= 80
    && ShortLines(Shown(d.address1), Shown(d.address2), Shown(d.address3), Shown(d.address4), Shown(d.address5))
    && postcodeOk(Shown(d.postcode))
    && IcmsGoodsOk(d.licenceType, d.goods)
  }

  lemma IcmsGoodPasses(licenceType: string, line: nat, g: IcmsGood, postcodeOk: string -> bool)
    requires IcmsGoodRecord(licenceType, line, g).Some?
    ensures RecordPasses(IcmsGoodRecord(licenceType, line, g).value, V.Icms, postcodeOk) <==> IcmsGoodOk(licenceType, g)
  {
    hide Decimal, ThreeDigits, ParseInt;
  }

  lemma {:induction false} IcmsGoodsPass(licenceType: string, goods: seq<IcmsGood>, line: nat, postcodeOk: string -> bool)
    requires GetGoods(licenceType, goods, line).Some?
    ensures Passes(GetGoods(licenceType, goods, line).value, V.Icms, postcodeOk) <==> IcmsGoodsOk(licenceType, goods)
  {
    hide RecordPasses, IcmsGoodRecord, IcmsGoodOk;
    if goods != [] {
      var first := IcmsGoodRecord(licenceType, line, goods[0]).value;
      IcmsGoodPasses(licenceType, line, goods[0], postcodeOk);
      IcmsGoodsPass(licenceType, goods[1..], line + 1, postcodeOk);
      PassesAppend([first], GetGoods(licenceType, goods[1..], line + 1).value, V.Icms, postcodeOk);
      PassesOne(first, V.Icms, postcodeOk);
      IcmsGoodsFirst(licenceType, goods);
    }
  }

  lemma IcmsGoodsFirst(licenceType: string, goods: seq<IcmsGood>)
    requires goods != []
    ensures IcmsGoodsOk(licenceType, goods) <==> IcmsGoodOk(licenceType, goods[0]) && IcmsGoodsOk(licenceType, goods[1..])
  {
    hide IcmsGoodOk;
    assert forall k :: 0 < k < |goods| ==> goods[k] == goods[1..][k - 1];
  }

  lemma IcmsTraderPasses(p: IcmsPayload, postcodeOk: string -> bool)
    requires IcmsDetails(p.data).Some?
    ensures var d := p.data;
            RecordPasses(IcmsDetails(d).value[0], V.Icms, postcodeOk) <==>
            && Shown(d.eori) != ""
            && DatesOk(Remove(d.traderStart, '-'), Remove(d.traderEnd, '-'))
            && |Shown(d.name)| <= 80
            && ShortLines(Shown(d.address1), Shown(d.address2), Shown(d.address3), Shown(d.address4), Shown(d.address5))
            && postcodeOk(Shown(d.postcode))
  {
    hide DatesOk, ShortLines, Remove, Shown, Strip, ReplaceChar, GetGoods;
  }

  lemma IcmsCountryPasses(d: IcmsData, postcodeOk: string -> bool)
    ensures Passes(IcmsCountry(d), V.Icms, postcodeOk)
    ensures RecordPasses(IcmsRestrictions(d), V.Icms, postcodeOk)
  {
    hide Strip, ReplaceChar;
  }

  lemma IcmsHeaderPasses(p: IcmsPayload, postcodeOk: string -> bool)
    requires GenerateLinesForIcmsLicence(p).Some?
    ensures RecordPasses(GenerateLinesForIcmsLicence(p).value[0], V.Icms, postcodeOk)
  {
    TypesAreValid(p.data.licenceType);
    hide ChiefType, V.ValidLicenceType, IcmsDetails, Remove;
  }

  lemma IcmsPasses(p: IcmsPayload, postcodeOk: string -> bool)
    requires GenerateLinesForIcmsLicence(p).Some?
    ensures Passes(GenerateLinesForIcmsLicence(p).value, V.Icms, postcodeOk) <==> IcmsOk(p, postcodeOk)
  {
    var d := p.data;
    IcmsHeaderPasses(p, postcodeOk);
    IcmsTraderPasses(p, postcodeOk);
    IcmsParts(d);
    IcmsGoodsPass(d.licenceType, d.goods, 1, postcodeOk);
    IcmsCountryPasses(d, postcodeOk);
    IcmsBlock(p);
    var header := GenerateLinesForIcmsLicence(p).value[0];
    BlockPasses(Some(header), IcmsDetails(d), V.Icms, postcodeOk);
    hide RecordPasses, IcmsDetails, GetGoods, IcmsCountry, IcmsRestrictions, DatesOk, ShortLines, Remove, IcmsGoodsOk, GenerateLinesForIcmsLicence;
    var trader := IcmsDetails(d).value[0];
    var goods := GetGoods(d.licenceType, d.goods, 1).value;
    PassesOne(trader, V.Icms, postcodeOk);
    PassesOne(IcmsRestrictions(d), V.Icms, postcodeOk);
    PassesAppend([trader], IcmsCountry(d), V.Icms, postcodeOk);
    PassesAppend([trader] + IcmsCountry(d), [IcmsRestrictions(d)], V.Icms, postcodeOk);
    PassesAppend([trader] + IcmsCountry(d) + [IcmsRestrictions(d)], goods, V.Icms, postcodeOk);
  }

  lemma IcmsBlock(p: IcmsPayload)
    requires GenerateLinesForIcmsLicence(p).Some?
    ensures IcmsDetails(p.data).Some?
    ensures Block(Some(GenerateLinesForIcmsLicence(p).value[0]), IcmsDetails(p.data)) == GenerateLinesForIcmsLicence(p)
  {
    hide IcmsDetails, Remove, ChiefType;
  }

  // ---------------------------------------------------------------- the whole file

  predicate PayloadOk(licences: Licences, k: nat, postcodeOk: string -> bool)
    requires k < Size(licences)
  {
    match licences
    case FromLite(payloads, _) => LiteOk(payloads[k], postcodeOk)
    case FromIcms(payloads) => IcmsOk(payloads[k], postcodeOk)
  }

  predicate SafePayload(licences: Licences, k: nat)
    requires k < Size(licences)
  {
    match licences
    case FromLite(payloads, history) => SafeLite(payloads[k], history)
    case FromIcms(payloads) => SafeIcms(payloads[k])
  }

  predicate AllSafe(licences: Licences) {
    forall k :: 0 <= k < Size(licences) ==> SafePayload(licences, k)
  }

  predicate AllOkFrom(licences: Licences, k: nat, postcodeOk: string -> bool) {
    forall j :: k <= j < Size(licences) ==> PayloadOk(licences, j, postcodeOk)
  }

  lemma OnePayload(licences: Licences, k: nat, system: V.System, postcodeOk: string -> bool)
    requires k < Size(licences) && SystemOf(licences, system) && LinesOf(licences, k).Some? && SafePayload(licences, k)
    ensures AllClean(LinesOf(licences, k).value)
    ensures Passes(LinesOf(licences, k).value, system, postcodeOk) <==> PayloadOk(licences, k, postcodeOk)
  {
    hide GenerateLinesForLicence, GenerateLinesForIcmsLicence, LiteOk, IcmsOk, SafeLite, SafeIcms, RecordPasses, Clean;
    match licences {
      case FromLite(payloads, history) =>
        LiteClean(payloads[k], history);
        LitePasses(payloads[k], history, postcodeOk);
      case FromIcms(payloads) =>
        IcmsClean(payloads[k]);
        IcmsPasses(payloads[k], postcodeOk);
    }
  }

  lemma {:induction false} AllPayloads(licences: Licences, k: nat, system: V.System, postcodeOk: string -> bool)
    requires k <= Size(licences) && SystemOf(licences, system) && RecordsFrom(licences, k).Some? && AllSafe(licences)
    ensures AllClean(RecordsFrom(licences, k).value)
    ensures Passes(RecordsFrom(licences, k).value, system, postcodeOk) <==> AllOkFrom(licences, k, postcodeOk)
    decreases Size(licences) - k
  {
    hide LinesOf, SafePayload, PayloadOk, RecordPasses, Clean;
    if k < Size(licences) {
      OnePayload(licences, k, system, postcodeOk);
      AllPayloads(licences, k + 1, system, postcodeOk);
      var first := LinesOf(licences, k).value;
      var rest := RecordsFrom(licences, k + 1).value;
      PassesAppend(first, rest, system, postcodeOk);
      AllCleanAppend(first, rest);
    }
  }

  /** Numbering changes only the counts on `end` records, which no rule looks at. */
  lemma {:induction false} SizedPass(blocks: seq<seq<Record>>, system: V.System, postcodeOk: string -> bool)
    requires AreBlocks(blocks)
    ensures Passes(Concat(SizedBlocks(blocks)), system, postcodeOk) <==> Passes(Concat(blocks), system, postcodeOk)
    ensures AllClean(Concat(blocks)) ==> AllClean(Concat(SizedBlocks(blocks)))
    ensures forall k :: 0 <= k < |Concat(SizedBlocks(blocks))| ==> !Concat(SizedBlocks(blocks))[k].FileHeader?
  {
    hide RecordPasses, Clean, IsBlock;
    if blocks != [] {
      var b := blocks[0];
      var rest := Concat(blocks[1..]);
      SizedOne(b);
      OneSized(b, system, postcodeOk);
      SizedPass(blocks[1..], system, postcodeOk);
      assert SizedBlocks(blocks)[1..] == SizedBlocks(blocks[1..]);
      PassesAppend(b, rest, system, postcodeOk);
      PassesAppend(Sized(b), Concat(SizedBlocks(blocks[1..])), system, postcodeOk);
      if AllClean(Concat(blocks)) {
        CleanParts(b, rest);
        AllCleanAppend(Sized(b), Concat(SizedBlocks(blocks[1..])));
      }
    }
  }

  lemma CleanParts(a: seq<Record>, b: seq<Record>)
    requires AllClean(a + b)
    ensures AllClean(a) && AllClean(b)
  {
    hide Clean;
    forall k | 0 <= k < |a|
      ensures Clean(a[k])
    {
      assert (a + b)[k] == a[k];
    }
    forall k | 0 <= k < |b|
      ensures Clean(b[k])
    {
      assert (a + b)[|a| + k] == b[k];
    }
  }

  lemma OneSized(b: seq<Record>, system: V.System, postcodeOk: string -> bool)
    requires IsBlock(b)
    ensures Passes(Sized(b), system, postcodeOk) <==> Passes(b, system, postcodeOk)
    ensures AllClean(b) ==> AllClean(Sized(b))
    ensures forall k :: 0 <= k < |Sized(b)| ==> !Sized(b)[k].FileHeader?
  {
    var front := b[..|b| - 1];
    assert b == front + [End(LICENCE, None)];
    EndPasses(system, postcodeOk);
    SizedClean(b);
    hide RecordPasses, AllClean;
    PassesAppend(front, [End(LICENCE, None)], system, postcodeOk);
    PassesAppend(front, [End(LICENCE, Some(|b|))], system, postcodeOk);
    PassesOne(End(LICENCE, None), system, postcodeOk);
    PassesOne(End(LICENCE, Some(|b|)), system, postcodeOk);
  }

  lemma SizedClean(b: seq<Record>)
    requires IsBlock(b)
    ensures AllClean(b) ==> AllClean(Sized(b))
  {
    EndClean(|b|);
    hide Clean;
  }

  lemma EndClean(n: nat)
    ensures Clean(End(LICENCE, Some(n)))
  {
    NumberSafe(n);
  }

  lemma {:induction false} ConformPasses(records: seq<Record>, n: nat, system: V.System, postcodeOk: string -> bool)
    requires forall k :: 0 <= k < |records| ==> !records[k].FileHeader?
    ensures AllConform(records, n, "licenceData", system, postcodeOk) <==> Passes(records, system, postcodeOk)
  {
    hide Conforms;
    if records != [] {
      ConformPasses(records[1..], n + 1, system, postcodeOk);
      AnyNumber(records[0], n, system, postcodeOk);
      PassesAppend([records[0]], records[1..], system, postcodeOk);
      PassesOne(records[0], system, postcodeOk);
      assert [records[0]] + records[1..] == records;
    }
  }

  lemma AnyNumber(r: Record, n: nat, system: V.System, postcodeOk: string -> bool)
    requires !r.FileHeader?
    ensures Conforms(r, n, "licenceData", system, postcodeOk) <==> RecordPasses(r, system, postcodeOk)
  {
    hide V.ValidAction, V.ValidLicenceType, V.ValidControl, V.ValidCountryUse, DatesOk, ShortLines, Shown;
  }

  /** The records of the file as numbered. */
  function NumberedRecords(licences: Licences, runNumber: nat, timeStamp: string, system: V.System): seq<Record>
    requires AllGenerate(licences)
  {
    BlocksFromShape(licences, 0);
    [Header(SourceName(system), runNumber, timeStamp)] + Concat(SizedBlocks(BlocksFrom(licences, 0)))
    + [FileTrailer(TransactionsFrom(licences, 0))]
  }

  /** Header and trailer always conform, so the file does exactly when the licences' records pass. */
  lemma WholeConforms(header: Record, middle: seq<Record>, count: nat, system: V.System, postcodeOk: string -> bool)
    requires header.FileHeader? && header.dataId == "licenceData" && Conforms(header, 1, "", system, postcodeOk)
    requires forall k :: 0 <= k < |middle| ==> !middle[k].FileHeader?
    ensures AllConform([header] + middle + [FileTrailer(count)], 1, "", system, postcodeOk) <==> Passes(middle, system, postcodeOk)
  {
    hide Conforms;
    var rest := middle + [FileTrailer(count)];
    Assoc([header], middle, [FileTrailer(count)]);
    assert ([header] + rest)[1..] == rest;
    ConformPasses(rest, 2, system, postcodeOk);
    PassesAppend(middle, [FileTrailer(count)], system, postcodeOk);
    PassesOne(FileTrailer(count), system, postcodeOk);
    TrailerPasses(count, system, postcodeOk);
  }

  lemma TrailerPasses(count: nat, system: V.System, postcodeOk: string -> bool)
    ensures RecordPasses(FileTrailer(count), system, postcodeOk)
  {
  }

  lemma HeaderConforms(runNumber: nat, timeStamp: string, system: V.System, postcodeOk: string -> bool)
    ensures Conforms(Header(SourceName(system), runNumber, timeStamp), 1, "", system, postcodeOk)
    ensures Safe(timeStamp) ==> Clean(Header(SourceName(system), runNumber, timeStamp))
  {
    if Safe(timeStamp) {
      OwnHeaderClean(runNumber, timeStamp, system);
    }
    hide Clean, Safe, Decimal;
  }

  lemma OwnHeaderClean(runNumber: nat, timeStamp: string, system: V.System)
    requires Safe(timeStamp)
    ensures Clean(Header(SourceName(system), runNumber, timeStamp))
  {
    NumberSafe(runNumber);
    SourceSafe(system);
    FixedWordsSafe();
    hide Decimal, SourceName, Clean, Safe;
    AnyHeaderClean(SourceName(system), "CHIEF", "licenceData", timeStamp, runNumber, "N");
  }

  lemma FixedWordsSafe()
    ensures Safe("CHIEF") && Safe("licenceData") && Safe("N")
  {
  }

  lemma SourceSafe(system: V.System)
    ensures Safe(SourceName(system))
  {
  }

  lemma AnyHeaderClean(source: string, destination: string, dataId: string, created: string, runNumber: nat, reset: string)
    requires Safe(source) && Safe(destination) && Safe(dataId) && Safe(created) && Safe(Decimal(runNumber)) && Safe(reset)
    ensures Clean(FileHeader(source, destination, dataId, created, runNumber, reset))
  {
    hide Decimal;
  }

  lemma NumberedRecordsClean(licences: Licences, runNumber: nat, timeStamp: string, system: V.System, postcodeOk: string -> bool)
    requires SystemOf(licences, system) && AllGenerate(licences) && AllSafe(licences) && Safe(timeStamp)
    ensures AllClean(NumberedRecords(licences, runNumber, timeStamp, system))
  {
    var header := Header(SourceName(system), runNumber, timeStamp);
    var blocks := BlocksFrom(licences, 0);
    hide AllClean, Passes, AllSafe;
    BlocksFromShape(licences, 0);
    RecordsFromBlocks(licences, 0);
    AllPayloads(licences, 0, system, postcodeOk);
    SizedPass(blocks, system, postcodeOk);
    HeaderConforms(runNumber, timeStamp, system, postcodeOk);
    TrailerClean(|blocks|);
    FramedClean(header, Concat(SizedBlocks(blocks)), FileTrailer(|blocks|));
  }

  lemma FramedClean(header: Record, middle: seq<Record>, trailer: Record)
    requires AllClean(middle) && Clean(header) && Clean(trailer)
    ensures AllClean([header] + middle + [trailer])
  {
    hide Clean;
    AllCleanAppend([header], middle);
    AllCleanAppend([header] + middle, [trailer]);
  }

  /** The text of the file: its numbered records, a line each, every line splitting back to its record. */
  lemma FileTextIs(licences: Licences, runNumber: nat, timeStamp: string, system: V.System, postcodeOk: string -> bool)
    requires SystemOf(licences, system) && AllGenerate(licences) && AllSafe(licences) && Safe(timeStamp)
    ensures var records := NumberedRecords(licences, runNumber, timeStamp, system);
            && AllClean(records)
            && FormatLines(LicenceRecords(licences, runNumber, timeStamp, system)) == Some(Join(LinesFrom(records, 1), LINE_SEP) + [LINE_SEP])
            && Split(Join(LinesFrom(records, 1), LINE_SEP) + [LINE_SEP], LINE_SEP) == LinesFrom(records, 1) + [""]
  {
    var header := Header(SourceName(system), runNumber, timeStamp);
    var blocks := BlocksFrom(licences, 0);
    var records := NumberedRecords(licences, runNumber, timeStamp, system);
    hide AllClean;
    BlocksFromShape(licences, 0);
    NumberedFile(header, blocks);
    RecordsFromBlocks(licences, 0);
    NumberedRecordsClean(licences, runNumber, timeStamp, system, postcodeOk);
    LinesSplit(records);
  }

  lemma TrailerClean(n: nat)
    ensures Clean(FileTrailer(n))
  {
    NumberSafe(n);
  }

  lemma LinesSplit(records: seq<Record>)
    requires AllClean(records) && records != []
    ensures Split(Join(LinesFrom(records, 1), LINE_SEP) + [LINE_SEP], LINE_SEP) == LinesFrom(records, 1) + [""]
  {
    var lines := LinesFrom(records, 1);
    LinesFree(records, 1);
    LinesFromAt(records, 1);
    hide *;
    JoinAppend(lines, "", LINE_SEP);
    assert Join(lines, LINE_SEP) + [LINE_SEP] + "" == Join(lines, LINE_SEP) + [LINE_SEP];
    EmptyLast(lines);
    SplitJoin(lines + [""], LINE_SEP);
  }

  lemma EmptyLast(lines: seq<string>)
    requires AllFree(lines, LINE_SEP)
    ensures AllFree(lines + [""], LINE_SEP)
  {
  }

  lemma {:induction false} LinesFree(records: seq<Record>, n: nat)
    requires AllClean(records)
    ensures AllFree(LinesFrom(records, n), LINE_SEP)
  {
    hide FormatLine, Clean;
    if records != [] {
      LineSplitsBack(n, records[0]);
      LinesFree(records[1..], n + 1);
    }
  }

  /**
   A licence file is written exactly when every payload in it obeys the rules: for all payload
   lists on which generation succeeds and whose texts hold no separator. A file that breaks one
   is refused with the list of errors, never written.
   */
  lemma WrittenExactlyWhenPayloadsOk(licences: Licences, runNumber: nat, timeStamp: string, system: V.System, postcodeOk: string -> bool)
    requires SystemOf(licences, system) && AllGenerate(licences) && AllSafe(licences) && Safe(timeStamp)
    ensures Edifact(licences, runNumber, timeStamp, system, postcodeOk).Written? <==> AllOkFrom(licences, 0, postcodeOk)
  {
    hide *;
    var records := NumberedRecords(licences, runNumber, timeStamp, system);
    var header := Header(SourceName(system), runNumber, timeStamp);
    var blocks := BlocksFrom(licences, 0);
    FileTextIs(licences, runNumber, timeStamp, system, postcodeOk);
    BlocksFromShape(licences, 0);
    RecordsFromBlocks(licences, 0);
    AllPayloads(licences, 0, system, postcodeOk);
    SizedPass(blocks, system, postcodeOk);
    HeaderConforms(runNumber, timeStamp, system, postcodeOk);
    HeaderIs(runNumber, timeStamp, system);
    NumberedRecordsAre(licences, runNumber, timeStamp, system);
    WholeConforms(header, Concat(SizedBlocks(blocks)), TransactionsFrom(licences, 0), system, postcodeOk);
    FileValidExactly(records, 1, "", system, postcodeOk);
    WrittenWhenValid(licences, runNumber, timeStamp, system, postcodeOk, Join(LinesFrom(records, 1), LINE_SEP) + [LINE_SEP]);
  }

  lemma HeaderIs(runNumber: nat, timeStamp: string, system: V.System)
    ensures var header := Header(SourceName(system), runNumber, timeStamp);
            header.FileHeader? && header.dataId == "licenceData"
  {
  }

  lemma NumberedRecordsAre(licences: Licences, runNumber: nat, timeStamp: string, system: V.System)
    requires AllGenerate(licences)
    ensures AreBlocks(BlocksFrom(licences, 0))
    ensures NumberedRecords(licences, runNumber, timeStamp, system) ==
            [Header(SourceName(system), runNumber, timeStamp)] + Concat(SizedBlocks(BlocksFrom(licences, 0)))
            + [FileTrailer(TransactionsFrom(licences, 0))]
  {
    BlocksFromShape(licences, 0);
  }

  lemma WrittenWhenValid(licences: Licences, runNumber: nat, timeStamp: string, system: V.System, postcodeOk: string -> bool, text: string)
    requires AllGenerate(licences)
    requires FormatLines(LicenceRecords(licences, runNumber, timeStamp, system)) == Some(text)
    ensures Edifact(licences, runNumber, timeStamp, system, postcodeOk).Written? <==>
            V.FileErrors(Split(text, LINE_SEP), "", system, postcodeOk) == Some([])
  {
    hide FormatLines, LicenceRecords, V.FileErrors, Split;
  }

  /**
   What a written file contains: its lines, numbered 1 to n, are the header, the licence blocks
   each closed by an `end` record carrying the block's own size, and a trailer counting one
   transaction per payload and two per update; header, blocks and trailer make up all n lines.
   */
  lemma WrittenFileContents(licences: Licences, runNumber: nat, timeStamp: string, system: V.System, postcodeOk: string -> bool)
    requires SystemOf(licences, system) && AllSafe(licences) && Safe(timeStamp)
    requires Edifact(licences, runNumber, timeStamp, system, postcodeOk).Written?
    ensures AllGenerate(licences)
    ensures var records := NumberedRecords(licences, runNumber, timeStamp, system);
            && Split(Edifact(licences, runNumber, timeStamp, system, postcodeOk).text, LINE_SEP) == LinesFrom(records, 1) + [""]
            && |records| == 1 + TotalSize(BlocksFrom(licences, 0)) + 1
    ensures |BlocksFrom(licences, 0)| == TransactionsFrom(licences, 0) && AreBlocks(BlocksFrom(licences, 0))
  {
    FileTextIs(licences, runNumber, timeStamp, system, postcodeOk);
    BlocksFromShape(licences, 0);
    SizedLength(BlocksFrom(licences, 0));
    hide Conforms, LinesOf, BlocksFrom, Clean, V.FileErrors, FormatLines, LinesFrom, Join, Split, SafePayload;
  }

  lemma {:induction false} SizedLength(blocks: seq<seq<Record>>)
    requires AreBlocks(blocks)
    ensures |Concat(SizedBlocks(blocks))| == TotalSize(blocks)
  {
    hide IsBlock;
    if blocks != [] {
      assert IsBlock(blocks[0]);
      SizedOne(blocks[0]);
      SizedLength(blocks[1..]);
      assert SizedBlocks(blocks)[1..] == SizedBlocks(blocks[1..]);
    }
  }

  lemma SizedOne(b: seq<Record>)
    requires IsBlock(b)
    ensures |b| >= 1 && |Sized(b)| == |b|
  {
  }
}
