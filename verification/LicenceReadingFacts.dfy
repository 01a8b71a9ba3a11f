/**
 A generated licence file says what its payloads say: proofs about `LicenceReading`.
 */
module LicenceReadingFacts {
  import opened Text
  import opened ChiefProtocol
  import opened LicenceFiles
  import opened LicenceFileFacts
  import opened LicenceFileValidity
  import opened LicenceReading
  import V = EdifactValidator

  // ---------------------------------------------------------------- texts

  lemma {:induction false} RemoveIsJoined(s: string, c: char)
    ensures Remove(s, c) == Joined(Split(s, c))
  {
    if s == "" {
      assert Split(s, c)[1..] == [];
    } else {
      RemoveIsJoined(s[1..], c);
      var rest := Split(s[1..], c);
      assert Split(s, c)[1..] == if s[0] == c then rest else rest[1..];
      if s[0] != c {
        Assoc([s[0]], rest[0], Joined(rest[1..]));
      }
    }
  }

  lemma {:induction false} FromFirstDigitIs(s: string)
    ensures FromFirstDigit(s) == if FirstDigit(s) < |s| then Some(s[FirstDigit(s)..]) else None
  {
    if s != "" && !IsDigit(s[0]) {
      FromFirstDigitIs(s[1..]);
    }
  }

  lemma {:induction false} AfterFirstIs(s: string, sep: char)
    ensures AfterFirst(s, sep).Some? ==> Split(AfterFirst(s, sep).value, sep) == Split(s, sep)[1..]
    ensures AfterFirst(s, sep).Some? <==> |Split(s, sep)| > 1
  {
    if s != "" {
      AfterFirstIs(s[1..], sep);
      assert s[0] == sep ==> Split(s, sep)[1..] == Split(s[1..], sep);
      assert s[0] != sep ==> Split(s, sep)[1..] == Split(s[1..], sep)[1..];
    }
  }

  /** The transaction of a licence reference, and when there is none. */
  lemma TransactionReferenceIs(reference: string)
    ensures TransactionReference(reference).Some? <==>
            if "GB" <= reference then |Split(reference, '/')| > 1 else FirstDigit(reference) < |reference|
    ensures TransactionReference(reference).Some? ==> TransactionReference(reference) == Some(ShortReference(reference))
  {
    hide Remove, Split, Joined, FirstDigit;
    AfterFirstIs(reference, '/');
    FromFirstDigitIs(reference);
    if AfterFirst(reference, '/').Some? {
      RemoveIsJoined(AfterFirst(reference, '/').value, '/');
    }
    if FirstDigit(reference) < |reference| {
      RemoveIsJoined(reference[FirstDigit(reference)..], '-');
    }
    assert |reference| >= 2 && reference[..2] == "GB" <==> "GB" <= reference;
  }

  lemma TypeCodeIs(licenceType: string)
    ensures Shown(ChiefType(licenceType)) == TypeCode(licenceType)
    ensures ChiefType(licenceType).Some? <==> licenceType in CHIEF_TYPES
  {
  }

  lemma DateIs(value: Option<string>)
    requires Date(value).Some?
    ensures Date(value).value == Undashed(Printed(value))
  {
    RemoveIsJoined(value.value, '-');
  }

  lemma DecimalLength(n: nat)
    ensures |Decimal(n)| >= 1
    ensures n < 10 ==> |Decimal(n)| == 1
    ensures 10 <= n < 100 ==> |Decimal(n)| == 2
    ensures 100 <= n ==> |Decimal(n)| >= 3
  {
    if n >= 10 {
      DecimalLength(n / 10);
    }
  }

  lemma ThreeDigitsIs(n: nat)
    ensures ThreeDigits(n) == Padded(n)
  {
    DecimalLength(n);
  }

  lemma UnitCodeIs(unit: string)
    ensures UnitCode(unit) == ChiefUnit(unit)
  {
  }

  lemma CountedUnit(unit: string)
    ensures UnitCode(unit) == Some(30) <==> unit in {"NAR", "ITG"}
  {
  }

  lemma {:induction false} ReplaceIsJoin(s: string, a: char, b: char)
    ensures ReplaceChar(s, a, b) == Join(Split(s, a), b)
  {
    if s != "" {
      ReplaceIsJoin(s[1..], a, b);
      JoinHead(s[0], Split(s[1..], a), b);
      var rest := Split(s[1..], a);
      assert Split(s, a) == if s[0] == a then [""] + rest else [[s[0]] + rest[0]] + rest[1..];
    }
  }

  lemma JoinHead(c: char, parts: seq<string>, sep: char)
    requires parts != []
    ensures Join([[c] + parts[0]] + parts[1..], sep) == [c] + Join(parts, sep)
    ensures Join([""] + parts, sep) == [sep] + Join(parts, sep)
  {
    assert ([""] + parts)[1..] == parts;
    assert ([[c] + parts[0]] + parts[1..])[1..] == parts[1..];
    if |parts| > 1 {
      Assoc([c], parts[0], [sep]);
      Assoc([c], parts[0] + [sep], Join(parts[1..], sep));
    }
  }

  // ---------------------------------------------------------------- reading records

  function RecordFields(r: Record): Fields {
    [RecordType(r)] + Attributes(r)
  }

  function ReadRecords(records: seq<Record>, s: Reader): Reader {
    if records == [] then s else ReadRecords(records[1..], ReadFields(RecordFields(records[0]), s))
  }

  lemma {:induction false} ReadPrinted(records: seq<Record>, n: nat, s: Reader)
    requires AllClean(records)
    ensures ReadLines(LinesFrom(records, n) + [""], s) == ReadRecords(records, s)
  {
    hide FormatLine, Clean, RecordFields, ReadFields;
    if records == [] {
      EmptyLine(s);
    } else {
      LineFields(n, records[0]);
      ReadPrinted(records[1..], n + 1, ReadFields(RecordFields(records[0]), s));
      var lines := LinesFrom(records, n) + [""];
      assert lines[1..] == LinesFrom(records[1..], n + 1) + [""];
    }
  }

  lemma EmptyLine(s: Reader)
    ensures ReadLines([] + [""], s) == s
  {
    assert [] + [""] == [""] && [""][1..] == [];
  }

  lemma LineFields(n: nat, r: Record)
    requires Clean(r)
    ensures FormatLine(n, r) != "" && Split(FormatLine(n, r), FIELD_SEP)[1..] == RecordFields(r)
  {
    LineSplitsBack(n, r);
    hide RecordType, Attributes, Decimal;
    assert Values(n, r)[1..] == RecordFields(r);
  }

  lemma {:induction false} ReadRecordsAppend(a: seq<Record>, b: seq<Record>, s: Reader)
    ensures ReadRecords(a + b, s) == ReadRecords(b, ReadRecords(a, s))
  {
    hide RecordFields, ReadFields;
    if a == [] {
      assert a + b == b;
    } else {
      assert (a + b)[1..] == a[1..] + b;
      ReadRecordsAppend(a[1..], b, ReadFields(RecordFields(a[0]), s));
    }
  }

  lemma ReadOne(r: Record, s: Reader)
    ensures ReadRecords([r], s) == ReadFields(RecordFields(r), s)
  {
    hide RecordFields, ReadFields;
    assert [r][1..] == [];
  }

  /** The terms after some lines of a licence. */
  function TermsAfter(records: seq<Record>, terms: Terms): Terms {
    if records == [] then terms else TermsAfter(records[1..], WithLine(terms, RecordFields(records[0])))
  }

  lemma {:induction false} TermsAfterAppend(a: seq<Record>, b: seq<Record>, terms: Terms)
    ensures TermsAfter(a + b, terms) == TermsAfter(b, TermsAfter(a, terms))
  {
    hide RecordFields, WithLine;
    if a == [] {
      assert a + b == b;
    } else {
      assert (a + b)[1..] == a[1..] + b;
      TermsAfterAppend(a[1..], b, WithLine(terms, RecordFields(a[0])));
    }
  }

  lemma TermsAfterOne(r: Record, terms: Terms)
    ensures TermsAfter([r], terms) == WithLine(terms, RecordFields(r))
  {
    hide RecordFields, WithLine;
    assert [r][1..] == [];
  }

  lemma ReadDetail(r: Record, s: Reader)
    requires IsDetail(r) && s.current.Some?
    ensures ReadFields(RecordFields(r), s) ==
            s.(current := Some(s.current.value.(terms := WithLine(s.current.value.terms, RecordFields(r)))))
  {
    DetailTypes(r);
    hide RecordType, Attributes, WithLine;
  }

  lemma DetailTypes(r: Record)
    requires IsDetail(r)
    ensures RecordType(r) !in {"licence", "end", "fileHeader", "fileTrailer"}
  {
  }

  lemma {:induction false} ReadDetails(details: seq<Record>, s: Reader)
    requires AreDetails(details) && s.current.Some?
    ensures ReadRecords(details, s) == s.(current := Some(s.current.value.(terms := TermsAfter(details, s.current.value.terms))))
  {
    hide RecordFields, ReadFields, IsDetail, WithLine;
    if details != [] {
      ReadDetail(details[0], s);
      ReadDetails(details[1..], ReadFields(RecordFields(details[0]), s));
    }
  }

  /** What a licence header and its lines say together. */
  function Heard(header: Record, details: seq<Record>): Transaction
    requires header.Licence?
  {
    Transaction(header.transaction, header.action, header.reference, Printed(header.licenceType), header.usage,
                header.startDate, header.endDate, TermsAfter(details, NO_TERMS))
  }

  lemma ReadHeader(header: Record, s: Reader)
    requires header.Licence?
    ensures ReadFields(RecordFields(header), s) == s.(current := Some(Heard(header, [])))
  {
  }

  lemma ReadEnd(n: nat, s: Reader)
    requires s.current.Some?
    ensures ReadFields(RecordFields(End(LICENCE, Some(n))), s) == s.(done := s.done + [s.current.value], current := None)
  {
  }

  /** A numbered block is read as one transaction, whatever was read before it. */
  lemma ReadBlock(header: Record, details: seq<Record>, n: nat, s: Reader)
    requires header.Licence? && AreDetails(details)
    ensures ReadRecords([header] + details + [End(LICENCE, Some(n))], s) ==
            s.(done := s.done + [Heard(header, details)], current := None)
  {
    var s1 := s.(current := Some(Heard(header, [])));
    var s2 := s.(current := Some(Heard(header, details)));
    ReadHeader(header, s);
    ReadOne(header, s);
    assert Heard(header, []).terms == NO_TERMS;
    ReadDetails(details, s1);
    ReadEnd(n, s2);
    ReadOne(End(LICENCE, Some(n)), s2);
    hide RecordFields, ReadRecords, ReadFields, TermsAfter;
    ReadRecordsAppend([header], details, s);
    ReadRecordsAppend([header] + details, [End(LICENCE, Some(n))], s);
  }

  // ---------------------------------------------------------------- the lines of LITE's licences

  lemma TraderTerms(r: Record, terms: Terms)
    requires r.Trader?
    ensures TermsAfter([r], terms) ==
            terms.(holders := terms.holders + [Holder(Printed(r.rpaTraderId), r.traderStart, r.traderEnd, Printed(r.name),
                   [Printed(r.address1), Printed(r.address2), Printed(r.address3), Printed(r.address4), Printed(r.address5)],
                   Printed(r.postcode))])
  {
    TermsAfterOne(r, terms);
    var t := RecordFields(r);
    assert t[6..11] == [Printed(r.address1), Printed(r.address2), Printed(r.address3), Printed(r.address4), Printed(r.address5)];
  }

  lemma CountryTerms(r: Record, terms: Terms)
    requires r.Country?
    ensures TermsAfter([r], terms) ==
            terms.(destinations := terms.destinations + [Destination(Printed(r.code), Printed(r.group), r.use)])
  {
    TermsAfterOne(r, terms);
  }

  lemma ForeignTraderTerms(r: Record, terms: Terms)
    requires r.ForeignTrader?
    ensures TermsAfter([r], terms) ==
            terms.(consignees := terms.consignees + [Consignee(Printed(r.foreignName), [Printed(r.line1), r.line2, r.line3, r.line4, r.line5],
                   r.foreignPostcode, r.country)])
  {
    TermsAfterOne(r, terms);
    var t := RecordFields(r);
    assert t[2..7] == [Printed(r.line1), r.line2, r.line3, r.line4, r.line5];
  }

  lemma RestrictionsTerms(r: Record, terms: Terms)
    requires r.Restrictions?
    ensures TermsAfter([r], terms) == terms.(provisos := terms.provisos + [r.text])
  {
    TermsAfterOne(r, terms);
  }

  /** The columns of a goods line. */
  function LineColumns(n: string, commodity: string, description: string, controlledBy: string, unit: string, quantity: string): Fields {
    ["line"] + [n, commodity, "", "", "", description, controlledBy, "", unit, "", quantity, "", "", "", "", "", ""]
  }

  lemma ReadLineColumns(n: string, commodity: string, description: string, controlledBy: string, unit: string, quantity: string,
                        terms: Terms)
    ensures WithLine(terms, LineColumns(n, commodity, description, controlledBy, unit, quantity)) ==
            terms.(items := terms.items + [Item(n, commodity, description, controlledBy, unit, quantity)])
  {
    var t := LineColumns(n, commodity, description, controlledBy, unit, quantity);
    assert |t| == 18 && t[0] == "line" && t[12] == t[13] == t[14] == t[15] == t[16] == t[17] == "";
    assert EmptyFrom(t, 12);
  }

  lemma DataLineFields(r: Record)
    requires r.DataLine?
    ensures RecordFields(r) ==
            LineColumns(Decimal(r.lineNum), Printed(r.commodity), Printed(r.description), r.controlledBy, Printed(r.quantityUnit),
                        Printed(r.quantity))
  {
    hide Decimal;
  }

  lemma DataLineTerms(r: Record, terms: Terms)
    requires r.DataLine?
    ensures TermsAfter([r], terms) ==
            terms.(items := terms.items + [Item(Decimal(r.lineNum), Printed(r.commodity), Printed(r.description), r.controlledBy,
                   Printed(r.quantityUnit), Printed(r.quantity))])
  {
    hide *;
    TermsAfterOne(r, terms);
    DataLineFields(r);
    ReadLineColumns(Decimal(r.lineNum), Printed(r.commodity), Printed(r.description), r.controlledBy, Printed(r.quantityUnit),
                    Printed(r.quantity), terms);
  }

  lemma {:induction false} CountriesTerms(countries: seq<string>, terms: Terms)
    ensures TermsAfter(CountryRecords(countries), terms) ==
            terms.(destinations := terms.destinations
                   + seq(|countries|, k requires 0 <= k < |countries| => Destination(Region(countries[k]), "", "D")))
  {
    hide RecordFields, WithLine, Region;
    var all := seq(|countries|, k requires 0 <= k < |countries| => Destination(Region(countries[k]), "", "D"));
    if countries == [] {
      assert terms.destinations + all == terms.destinations;
    } else {
      var first := Country(Some(CountryId(countries[0])), None, "D");
      RegionIs(countries[0]);
      CountryTerms(first, terms);
      var next := terms.(destinations := terms.destinations + [Destination(Region(countries[0]), "", "D")]);
      CountriesTerms(countries[1..], next);
      TermsAfterAppend([first], CountryRecords(countries[1..]), terms);
      var rest := seq(|countries[1..]|, k requires 0 <= k < |countries[1..]| => Destination(Region(countries[1..][k]), "", "D"));
      assert all == [Destination(Region(countries[0]), "", "D")] + rest;
      Assoc(terms.destinations, [Destination(Region(countries[0]), "", "D")], rest);
    }
  }

  lemma RegionIs(country: string)
    ensures CountryId(country) == Region(country)
  {
  }

  lemma DestinationsTerms(d: LiteData, terms: Terms)
    ensures TermsAfter(Destinations(d), terms) == terms.(destinations := terms.destinations + LiteDestinations(d))
  {
    hide TermsAfter, CountryId, Region;
    CountriesTerms(d.countries, terms);
    NothingAfter(terms);
    CountryTerms(Country(None, Some(d.countryGroup), "D"), terms);
    if d.endUser.Some? {
      RegionIs(d.endUser.value.country);
      CountryTerms(Country(Some(CountryId(d.endUser.value.country)), None, "D"), terms);
    }
    assert terms.destinations + [] == terms.destinations;
  }

  lemma NothingAfter(terms: Terms)
    ensures TermsAfter([], terms) == terms
  {
  }

  lemma EndUserTerms(endUser: Option<EndUser>, terms: Terms)
    ensures TermsAfter(EndUserRecords(endUser), terms) == terms.(consignees := terms.consignees + LiteConsignees(endUser))
  {
    hide TermsAfter, CountryId, Region;
    NothingAfter(terms);
    assert terms.consignees + [] == terms.consignees;
    if endUser.Some? {
      RegionIs(endUser.value.country);
      ForeignTraderTerms(EndUserRecords(endUser)[0], terms);
    }
  }

  lemma GoodTerms(g: Good, line: nat, terms: Terms)
    requires GoodRecord(g, line).Some?
    ensures TermsAfter([GoodRecord(g, line).value], terms) == terms.(items := terms.items + [LiteItem(g, line)])
  {
    hide UnitCode, ThreeDigits, Padded, Decimal, TermsAfter;
    UnitCodeIs(g.unit);
    CountedUnit(g.unit);
    ThreeDigitsIs(UnitCode(g.unit).value);
    DataLineTerms(GoodRecord(g, line).value, terms);
  }

  function ItemsFrom(goods: seq<Good>, line: nat): seq<Item> {
    seq(|goods|, k requires 0 <= k < |goods| => LiteItem(goods[k], line + k))
  }

  lemma ItemsFromFirst(goods: seq<Good>, line: nat)
    requires goods != []
    ensures ItemsFrom(goods, line) == [LiteItem(goods[0], line)] + ItemsFrom(goods[1..], line + 1)
  {
    hide LiteItem;
  }

  lemma {:induction false} GoodsTerms(goods: seq<Good>, line: nat, terms: Terms)
    requires GoodRecords(goods, line).Some?
    ensures TermsAfter(GoodRecords(goods, line).value, terms) == terms.(items := terms.items + ItemsFrom(goods, line))
  {
    hide GoodRecord, LiteItem, RecordFields, WithLine;
    if goods == [] {
      assert terms.items + ItemsFrom(goods, line) == terms.items;
    } else {
      var first := GoodRecord(goods[0], line).value;
      GoodTerms(goods[0], line, terms);
      GoodsTerms(goods[1..], line + 1, terms.(items := terms.items + [LiteItem(goods[0], line)]));
      TermsAfterAppend([first], GoodRecords(goods[1..], line + 1).value, terms);
      ItemsFromFirst(goods, line);
      Assoc(terms.items, [LiteItem(goods[0], line)], ItemsFrom(goods[1..], line + 1));
    }
  }

  lemma FixedTexts()
    ensures PROVISOS_TEXT == LITE_PROVISOS
    ensures OPEN_GOODS_TEXT == OPEN_ITEM.description
    ensures Decimal(1) == OPEN_ITEM.line
  {
    FourJoined("Provisos may ", "apply please ", "see licence", "");
    FourJoined("Open Licence ", "goods - see ", "actual licence ", "for information");
  }

  lemma FourJoined(a: string, b: string, c: string, d: string)
    ensures Joined([a, b, c]) == a + (b + c)
    ensures Joined([a, b, c, d]) == a + (b + (c + d))
  {
    JoinedTwo(c, d);
    JoinedTwo(b, c);
    assert [a, b, c, d][1..] == [b, c, d] && [b, c, d][1..] == [c, d] && [a, b, c][1..] == [b, c];
    assert Joined([b, c, d]) == b + Joined([c, d]);
  }

  lemma JoinedTwo(a: string, b: string)
    ensures Joined([a, b]) == a + b
  {
    assert [a, b][1..] == [b] && [b][1..] == [];
    assert b + "" == b;
    assert Joined([b]) == b;
  }

  lemma OpenTerms(terms: Terms)
    ensures TermsAfter([OPEN_GOODS], terms) == terms.(items := terms.items + [OPEN_ITEM])
    ensures TermsAfter([PROVISOS], terms) == terms.(provisos := terms.provisos + [LITE_PROVISOS])
  {
    hide TermsAfter;
    FixedTexts();
    DataLineTerms(OPEN_GOODS, terms);
    RestrictionsTerms(PROVISOS, terms);
  }

  /** Six parts, one after the other. */
  lemma SixParts(a: seq<Record>, b: seq<Record>, c: seq<Record>, d: seq<Record>, e: seq<Record>, f: seq<Record>, terms: Terms)
    ensures TermsAfter(a + b + c + d + e + f, terms) ==
            TermsAfter(f, TermsAfter(e, TermsAfter(d, TermsAfter(c, TermsAfter(b, TermsAfter(a, terms))))))
  {
    hide TermsAfter;
    TermsAfterAppend(a, b, terms);
    TermsAfterAppend(a + b, c, terms);
    TermsAfterAppend(a + b + c, d, terms);
    TermsAfterAppend(a + b + c + d, e, terms);
    TermsAfterAppend(a + b + c + d + e, f, terms);
  }

  lemma TraderSays(d: LiteData)
    requires TraderRecord(d).Some?
    ensures TermsAfter([TraderRecord(d).value], NO_TERMS) == NO_TERMS.(holders := LiteTerms(d).holders)
  {
    hide TermsAfter, Date, Undashed;
    DateIs(d.startDate);
    DateIs(d.endDate);
    TraderTerms(TraderRecord(d).value, NO_TERMS);
  }

  lemma ItemsSay(d: LiteData, terms: Terms)
    requires GoodsOf(d).Some? && terms.items == []
    ensures TermsAfter(if IsOpen(d.licenceType) then [OPEN_GOODS] else [], TermsAfter(GoodsOf(d).value, terms)) ==
            terms.(items := LiteItems(d))
  {
    hide TermsAfter, GoodRecords, LiteItem;
    NothingAfter(terms);
    if IsStandard(d.licenceType) {
      GoodsTerms(d.goods, 1, terms);
      ItemsFromOne(d.goods);
      assert [] + ItemsFrom(d.goods, 1) == ItemsFrom(d.goods, 1);
      NothingAfter(terms.(items := ItemsFrom(d.goods, 1)));
    } else {
      OpenTerms(terms);
      assert [] + [OPEN_ITEM] == [OPEN_ITEM];
    }
  }

  lemma ItemsFromOne(goods: seq<Good>)
    ensures ItemsFrom(goods, 1) == seq(|goods|, k requires 0 <= k < |goods| => LiteItem(goods[k], k + 1))
  {
    hide LiteItem;
  }

  lemma DetailsSay(d: LiteData)
    requires Details(d).Some?
    ensures TermsAfter(Details(d).value, NO_TERMS) == LiteTerms(d)
  {
    hide TermsAfter, TraderRecord, GoodsOf, Destinations, EndUserRecords, LiteDestinations, LiteConsignees, LiteItems, IsOpen, Undashed;
    var last := if IsOpen(d.licenceType) then [OPEN_GOODS] else [];
    SixParts([TraderRecord(d).value], Destinations(d), EndUserRecords(d.endUser), [PROVISOS], GoodsOf(d).value, last, NO_TERMS);
    TraderSays(d);
    var t1 := NO_TERMS.(holders := LiteTerms(d).holders);
    DestinationsTerms(d, t1);
    assert [] + LiteDestinations(d) == LiteDestinations(d);
    var t2 := t1.(destinations := LiteDestinations(d));
    EndUserTerms(d.endUser, t2);
    assert [] + LiteConsignees(d.endUser) == LiteConsignees(d.endUser);
    var t3 := t2.(consignees := LiteConsignees(d.endUser));
    OpenTerms(t3);
    assert [] + [LITE_PROVISOS] == [LITE_PROVISOS];
    ItemsSay(d, t3.(provisos := [LITE_PROVISOS]));
  }

  // ---------------------------------------------------------------- the blocks of a payload

  lemma SizedIs(header: Record, details: seq<Record>)
    ensures var b := [header] + details + [End(LICENCE, None)];
            Sized(b) == [header] + details + [End(LICENCE, Some(|b|))]
  {
  }

  /** Reading one generated block. */
  lemma ReadGeneratedBlock(header: Option<Record>, details: Option<seq<Record>>, s: Reader)
    requires Block(header, details).Some? && header.value.Licence? && AreDetails(details.value)
    ensures IsBlock(Block(header, details).value)
    ensures ReadRecords(Sized(Block(header, details).value), s) ==
            s.(done := s.done + [Heard(header.value, details.value)], current := None)
  {
    BlockIsBlock(header, details);
    ReadBlock(header.value, details.value, |Block(header, details).value|, s);
    SizedIs(header.value, details.value);
  }

  lemma LiteHeaderSays(action: string, reference: string, d: LiteData, period: LiteData, details: seq<Record>)
    requires LicenceRecord(TransactionReference(reference), action, reference, ChiefType(d.licenceType), "E",
                           Date(period.startDate), Date(period.endDate)).Some?
    ensures Heard(LicenceRecord(TransactionReference(reference), action, reference, ChiefType(d.licenceType), "E",
                                Date(period.startDate), Date(period.endDate)).value, details) ==
            LiteTransaction(action, reference, d, period, TermsAfter(details, NO_TERMS))
  {
    hide TransactionReference, ShortReference, ChiefType, TypeCode, Date, Undashed, TermsAfter;
    TransactionReferenceIs(reference);
    TypeCodeIs(d.licenceType);
    DateIs(period.startDate);
    DateIs(period.endDate);
  }

  lemma ReadLiteBlock(action: Action, reference: string, d: LiteData, s: Reader)
    requires LiteBlock(action, reference, d).Some? && action != Update
    ensures IsBlock(LiteBlock(action, reference, d).value)
    ensures ReadRecords(Sized(LiteBlock(action, reference, d).value), s) ==
            s.(done := s.done + [LiteTransaction(ActionText(action), reference, d, d,
                                                 if action == Cancel then NO_TERMS else LiteTerms(d))], current := None)
  {
    var header := LicenceRecord(TransactionReference(reference), ActionText(action), reference, ChiefType(d.licenceType), "E",
                                Date(d.startDate), Date(d.endDate));
    var details := if action == Cancel then Some([]) else Details(d);
    NothingAfter(NO_TERMS);
    assert header.value.Licence?;
    hide Details, ChiefType, RecordFields, ReadRecords, LiteTerms, LicenceRecord, TransactionReference, Date, Heard;
    if action != Cancel {
      DetailsAreDetails(d);
      DetailsSay(d);
    }
    ReadGeneratedBlock(header, details, s);
    LiteHeaderSays(ActionText(action), reference, d, d, details.value);
  }

  lemma ReadCancelOld(p: LitePayload, history: seq<LitePayload>, s: Reader)
    requires CancelOldBlock(p, history).Some?
    ensures PreviousPayload(history, p.oldReference).Some?
    ensures IsBlock(CancelOldBlock(p, history).value)
    ensures ReadRecords(Sized(CancelOldBlock(p, history).value), s) ==
            s.(done := s.done + [LiteTransaction("cancel", p.oldReference, p.data,
                                                 PreviousPayload(history, p.oldReference).value, NO_TERMS)], current := None)
  {
    var previous := PreviousPayload(history, p.oldReference).value;
    var header := LicenceRecord(TransactionReference(p.oldReference), "cancel", p.oldReference, ChiefType(p.data.licenceType), "E",
                                Date(previous.startDate), Date(previous.endDate));
    NothingAfter(NO_TERMS);
    assert header.value.Licence?;
    hide ChiefType, RecordFields, ReadRecords, LicenceRecord, TransactionReference, Date, Heard;
    ReadGeneratedBlock(header, Some([]), s);
    LiteHeaderSays("cancel", p.oldReference, p.data, previous, []);
  }

  function ReadBlocks(blocks: seq<seq<Record>>, s: Reader): Reader
    requires AreBlocks(blocks)
  {
    if blocks == [] then s else ReadBlocks(blocks[1..], ReadRecords(Sized(blocks[0]), s))
  }

  lemma OneBlock(blocks: seq<seq<Record>>, s: Reader)
    requires AreBlocks(blocks) && |blocks| == 1
    ensures IsBlock(blocks[0]) && ReadBlocks(blocks, s) == ReadRecords(Sized(blocks[0]), s)
  {
    hide ReadRecords, Sized;
    assert IsBlock(blocks[0]) && blocks[1..] == [];
    assert ReadBlocks([], ReadRecords(Sized(blocks[0]), s)) == ReadRecords(Sized(blocks[0]), s);
  }

  lemma TwoBlocks(blocks: seq<seq<Record>>, s: Reader)
    requires AreBlocks(blocks) && |blocks| == 2
    ensures IsBlock(blocks[0]) && IsBlock(blocks[1])
    ensures ReadBlocks(blocks, s) == ReadRecords(Sized(blocks[1]), ReadRecords(Sized(blocks[0]), s))
  {
    hide ReadRecords, Sized;
    assert IsBlock(blocks[0]) && IsBlock(blocks[1]);
    assert blocks[1..] == [blocks[1]];
    OneBlock([blocks[1]], ReadRecords(Sized(blocks[0]), s));
  }

  lemma UpdateBlocks(p: LitePayload, history: seq<LitePayload>)
    requires p.action == Update && GenerateLinesForLicence(p, history).Some?
    ensures CancelOldBlock(p, history).Some? && LiteBlock(Insert, p.reference, p.data).Some?
    ensures BlocksOf(p, history) == [CancelOldBlock(p, history).value, LiteBlock(Insert, p.reference, p.data).value]
  {
    hide CancelOldBlock, LiteBlock;
  }

  lemma UpdateSays(p: LitePayload, history: seq<LitePayload>)
    requires p.action == Update && PreviousPayload(history, p.oldReference).Some?
    ensures LiteSays(p, history) ==
            [LiteTransaction("cancel", p.oldReference, p.data, PreviousPayload(history, p.oldReference).value, NO_TERMS)]
            + [LiteTransaction(ActionText(Insert), p.reference, p.data, p.data, LiteTerms(p.data))]
  {
    hide LiteTransaction, LiteTerms, PreviousPayload;
  }

  lemma ReadUpdate(p: LitePayload, history: seq<LitePayload>, s: Reader)
    requires p.action == Update && GenerateLinesForLicence(p, history).Some? && s.current.None? && AreBlocks(BlocksOf(p, history))
    ensures ReadBlocks(BlocksOf(p, history), s) == s.(done := s.done + LiteSays(p, history))
  {
    hide *;
    UpdateBlocks(p, history);
    ReadCancelOld(p, history, s);
    UpdateSays(p, history);
    var s1 := s.(done := s.done + LiteSays(p, history)[..1], current := None);
    ReadLiteBlock(Insert, p.reference, p.data, s1);
    TwoBlocks(BlocksOf(p, history), s);
    Assoc(s.done, LiteSays(p, history)[..1], LiteSays(p, history)[1..]);
  }

  lemma ReadOther(p: LitePayload, history: seq<LitePayload>, s: Reader)
    requires p.action != Update && GenerateLinesForLicence(p, history).Some? && s.current.None? && AreBlocks(BlocksOf(p, history))
    ensures ReadBlocks(BlocksOf(p, history), s) == s.(done := s.done + LiteSays(p, history))
  {
    ReadLiteBlock(p.action, p.reference, p.data, s);
    hide ReadRecords, LiteBlock, Sized, LiteTransaction, LiteTerms, ReadBlocks, IsBlock;
    OneBlock(BlocksOf(p, history), s);
  }

  /** Reading a LITE payload's blocks is hearing what it says. */
  lemma ReadPayload(p: LitePayload, history: seq<LitePayload>, s: Reader)
    requires GenerateLinesForLicence(p, history).Some? && s.current.None?
    ensures AreBlocks(BlocksOf(p, history))
    ensures ReadBlocks(BlocksOf(p, history), s) == s.(done := s.done + LiteSays(p, history))
  {
    hide *;
    GeneratedBlocks(p, history);
    if p.action == Update { ReadUpdate(p, history, s); } else { ReadOther(p, history, s); }
  }

  // ---------------------------------------------------------------- the block of an ICMS payload

  lemma IcmsGoodTerms(licenceType: string, g: IcmsGood, line: nat, terms: Terms)
    requires IcmsGoodRecord(licenceType, line, g).Some?
    ensures TermsAfter([IcmsGoodRecord(licenceType, line, g).value], terms) ==
            terms.(items := terms.items + [IcmsItem(licenceType, g, line)])
  {
    hide ParseInt, ThreeDigits, Padded, Decimal, TermsAfter;
    DataLineTerms(IcmsGoodRecord(licenceType, line, g).value, terms);
    if ParseInt(g.unit).Some? && ParseInt(g.unit).value >= 0 {
      ThreeDigitsIs(ParseInt(g.unit).value);
    }
  }

  function IcmsItemsFrom(licenceType: string, goods: seq<IcmsGood>, line: nat): seq<Item> {
    seq(|goods|, k requires 0 <= k < |goods| => IcmsItem(licenceType, goods[k], line + k))
  }

  lemma IcmsItemsFromFirst(licenceType: string, goods: seq<IcmsGood>, line: nat)
    requires goods != []
    ensures IcmsItemsFrom(licenceType, goods, line) ==
            [IcmsItem(licenceType, goods[0], line)] + IcmsItemsFrom(licenceType, goods[1..], line + 1)
  {
    hide IcmsItem;
  }

  lemma {:induction false} IcmsGoodsTerms(licenceType: string, goods: seq<IcmsGood>, line: nat, terms: Terms)
    requires GetGoods(licenceType, goods, line).Some?
    ensures TermsAfter(GetGoods(licenceType, goods, line).value, terms) ==
            terms.(items := terms.items + IcmsItemsFrom(licenceType, goods, line))
  {
    hide IcmsGoodRecord, IcmsItem, RecordFields, WithLine;
    if goods == [] {
      assert terms.items + IcmsItemsFrom(licenceType, goods, line) == terms.items;
    } else {
      var first := IcmsGoodRecord(licenceType, line, goods[0]).value;
      IcmsGoodTerms(licenceType, goods[0], line, terms);
      IcmsGoodsTerms(licenceType, goods[1..], line + 1, terms.(items := terms.items + [IcmsItem(licenceType, goods[0], line)]));
      TermsAfterAppend([first], GetGoods(licenceType, goods[1..], line + 1).value, terms);
      IcmsItemsFromFirst(licenceType, goods, line);
      Assoc(terms.items, [IcmsItem(licenceType, goods[0], line)], IcmsItemsFrom(licenceType, goods[1..], line + 1));
    }
  }

  lemma IcmsItemsFromOne(licenceType: string, goods: seq<IcmsGood>)
    ensures IcmsItemsFrom(licenceType, goods, 1) == seq(|goods|, k requires 0 <= k < |goods| => IcmsItem(licenceType, goods[k], k + 1))
  {
    hide IcmsItem;
  }

  lemma IcmsTraderSays(d: IcmsData)
    requires IcmsDetails(d).Some?
    ensures TermsAfter([IcmsDetails(d).value[0]], NO_TERMS) == NO_TERMS.(holders := IcmsTerms(d).holders)
  {
    hide TermsAfter, Undashed, Remove, GetGoods, Strip, ReplaceChar;
    RemoveIsJoined(d.traderStart, '-');
    RemoveIsJoined(d.traderEnd, '-');
    assert Undashed(d.traderStart) == Remove(d.traderStart, '-') && Undashed(d.traderEnd) == Remove(d.traderEnd, '-') by {
      UndashedIs(d.traderStart);
      UndashedIs(d.traderEnd);
    }
    TraderTerms(IcmsDetails(d).value[0], NO_TERMS);
  }

  lemma UndashedIs(s: string)
    ensures Remove(s, '-') == Undashed(s)
  {
    RemoveIsJoined(s, '-');
  }

  lemma IcmsCountrySays(d: IcmsData, terms: Terms)
    requires terms.destinations == []
    ensures TermsAfter(IcmsCountry(d), terms) == terms.(destinations := IcmsTerms(d).destinations)
  {
    hide TermsAfter, Undashed, Strip, Split, Join, IcmsItem;
    NothingAfter(terms);
    CountryTerms(Country(None, Some(d.countryGroup), "O"), terms);
    CountryTerms(Country(Some(d.countryCode), None, "O"), terms);
    assert [] + [Destination("", d.countryGroup, "O")] == [Destination("", d.countryGroup, "O")];
    assert [] + [Destination(d.countryCode, "", "O")] == [Destination(d.countryCode, "", "O")];
  }

  lemma IcmsRestrictionsSay(d: IcmsData, terms: Terms)
    requires terms.provisos == []
    ensures TermsAfter([IcmsRestrictions(d)], terms) == terms.(provisos := IcmsTerms(d).provisos)
  {
    hide TermsAfter, Undashed, Strip, Split, Join, IcmsItem, ReplaceChar;
    ReplaceIsJoin(d.restrictions, '\n', '|');
    RestrictionsTerms(IcmsRestrictions(d), terms);
    var text := Strip(Join(Split(d.restrictions, '\n'), '|'));
    assert [] + [text] == [text];
  }

  lemma IcmsDetailsSay(d: IcmsData)
    requires IcmsDetails(d).Some?
    ensures TermsAfter(IcmsDetails(d).value, NO_TERMS) == IcmsTerms(d)
  {
    IcmsParts(d);
    var goods := GetGoods(d.licenceType, d.goods, 1).value;
    var trader := [IcmsDetails(d).value[0]];
    hide TermsAfter, IcmsDetails, GetGoods, IcmsCountry, IcmsRestrictions;
    TermsAfterAppend(trader, IcmsCountry(d), NO_TERMS);
    TermsAfterAppend(trader + IcmsCountry(d), [IcmsRestrictions(d)], NO_TERMS);
    TermsAfterAppend(trader + IcmsCountry(d) + [IcmsRestrictions(d)], goods, NO_TERMS);
    IcmsTraderSays(d);
    var t1 := NO_TERMS.(holders := IcmsTerms(d).holders);
    IcmsCountrySays(d, t1);
    var t2 := t1.(destinations := IcmsTerms(d).destinations);
    IcmsRestrictionsSay(d, t2);
    var t3 := t2.(provisos := IcmsTerms(d).provisos);
    IcmsGoodsTerms(d.licenceType, d.goods, 1, t3);
    IcmsItemsFromOne(d.licenceType, d.goods);
    assert [] + IcmsTerms(d).items == IcmsTerms(d).items;
    hide IcmsTerms;
  }

  lemma ReadIcmsPayload(p: IcmsPayload, s: Reader)
    requires GenerateLinesForIcmsLicence(p).Some? && s.current.None?
    ensures AreBlocks([GenerateLinesForIcmsLicence(p).value])
    ensures ReadBlocks([GenerateLinesForIcmsLicence(p).value], s) == s.(done := s.done + [IcmsSays(p)])
  {
    var d := p.data;
    var header := GenerateLinesForIcmsLicence(p).value[0];
    GeneratedIcmsBlock(p);
    IcmsBlock(p);
    IcmsGoodsAreDetails(d.licenceType, d.goods, 1);
    assert AreDetails(IcmsDetails(d).value);
    IcmsHeaderSays(p);
    IcmsDetailsSay(d);
    hide IcmsDetails, GenerateLinesForIcmsLicence, ReadRecords, TermsAfter, IcmsTerms, IcmsSays;
    ReadGeneratedBlock(Some(header), IcmsDetails(d), s);
    OneBlock([GenerateLinesForIcmsLicence(p).value], s);
  }

  lemma IcmsHeaderSays(p: IcmsPayload)
    requires GenerateLinesForIcmsLicence(p).Some?
    ensures var header := GenerateLinesForIcmsLicence(p).value[0];
            header.Licence? && TermsAfter(IcmsDetails(p.data).value, NO_TERMS) == IcmsTerms(p.data) ==>
              Heard(header, IcmsDetails(p.data).value) == IcmsSays(p)
    ensures GenerateLinesForIcmsLicence(p).value[0].Licence?
  {
    hide IcmsDetails, TermsAfter, IcmsTerms, ChiefType, TypeCode, Remove, Undashed;
    UndashedIs(p.data.startDate);
    UndashedIs(p.data.endDate);
    TypeCodeIs(p.data.licenceType);
  }

  // ---------------------------------------------------------------- the whole file

  lemma {:induction false} ReadSizedBlocks(blocks: seq<seq<Record>>, s: Reader)
    requires AreBlocks(blocks)
    ensures ReadRecords(Concat(SizedBlocks(blocks)), s) == ReadBlocks(blocks, s)
  {
    hide RecordFields, ReadFields, IsBlock;
    if blocks != [] {
      SizedOne(blocks[0]);
      assert SizedBlocks(blocks)[1..] == SizedBlocks(blocks[1..]);
      ReadRecordsAppend(Sized(blocks[0]), Concat(SizedBlocks(blocks[1..])), s);
      ReadSizedBlocks(blocks[1..], ReadRecords(Sized(blocks[0]), s));
    }
  }

  lemma {:induction false} ReadBlocksAppend(a: seq<seq<Record>>, b: seq<seq<Record>>, s: Reader)
    requires AreBlocks(a) && AreBlocks(b)
    ensures AreBlocks(a + b) && ReadBlocks(a + b, s) == ReadBlocks(b, ReadBlocks(a, s))
  {
    hide ReadRecords, Sized, IsBlock;
    if a == [] {
      assert a + b == b;
    } else {
      SizedOne(a[0]);
      assert (a + b)[1..] == a[1..] + b;
      ReadBlocksAppend(a[1..], b, ReadRecords(Sized(a[0]), s));
    }
  }

  /** What the `k`-th payload says. */
  function SaysOne(licences: Licences, k: nat): seq<Transaction>
    requires k < Size(licences)
  {
    match licences
    case FromLite(payloads, history) => LiteSays(payloads[k], history)
    case FromIcms(payloads) => [IcmsSays(payloads[k])]
  }

  lemma ReadOnePayload(licences: Licences, k: nat, s: Reader) returns (blocks: seq<seq<Record>>)
    requires k < Size(licences) && AllGenerate(licences) && s.current.None?
    ensures AreBlocks(blocks) && BlocksFrom(licences, k) == blocks + BlocksFrom(licences, k + 1)
    ensures ReadBlocks(blocks, s) == s.(done := s.done + SaysOne(licences, k))
    ensures |blocks| == |SaysOne(licences, k)|
  {
    hide GenerateLinesForLicence, GenerateLinesForIcmsLicence, BlocksOf, IsBlock, ReadBlocks, IcmsSays, LiteSays;
    assert LinesOf(licences, k).Some?;
    match licences {
      case FromLite(payloads, history) =>
        blocks := BlocksOf(payloads[k], history);
        ReadPayload(payloads[k], history, s);
        GeneratedBlocks(payloads[k], history);
        SaysCount(payloads[k], history);
      case FromIcms(payloads) =>
        blocks := [GenerateLinesForIcmsLicence(payloads[k]).value];
        ReadIcmsPayload(payloads[k], s);
    }
  }

  lemma SaysCount(p: LitePayload, history: seq<LitePayload>)
    requires GenerateLinesForLicence(p, history).Some?
    ensures |LiteSays(p, history)| == Transactions(p)
  {
    hide LiteTransaction, LiteTerms;
  }

  lemma {:induction false} ReadPayloads(licences: Licences, k: nat, s: Reader)
    requires k <= Size(licences) && AllGenerate(licences) && s.current.None?
    ensures AreBlocks(BlocksFrom(licences, k))
    ensures ReadBlocks(BlocksFrom(licences, k), s) == s.(done := s.done + Says(licences, k))
    ensures |BlocksFrom(licences, k)| == |Says(licences, k)|
    decreases Size(licences) - k
  {
    hide AllGenerate, IsBlock, LiteSays, IcmsSays, ReadRecords, Sized;
    BlocksFromShape(licences, k);
    if k == Size(licences) {
      assert s.done + [] == s.done;
    } else {
      var blocks := ReadOnePayload(licences, k, s);
      var s1 := s.(done := s.done + SaysOne(licences, k));
      ReadPayloads(licences, k + 1, s1);
      ReadBlocksAppend(blocks, BlocksFrom(licences, k + 1), s);
      Assoc(s.done, SaysOne(licences, k), Says(licences, k + 1));
    }
  }

  /** The columns of a licence file's first line. */
  function HeaderLine(source: string, runNumber: nat, timeStamp: string): Fields {
    ["fileHeader", source, "CHIEF", "licenceData", timeStamp, Decimal(runNumber), "N"]
  }

  function Origin(licences: Licences): string {
    if licences.FromIcms? then "ILBDOTI" else "SPIRE"
  }

  /** A file that says these transactions and nothing else. */
  function Saying(source: string, runNumber: nat, timeStamp: string, says: seq<Transaction>): Reader {
    Reader(HeaderLine(source, runNumber, timeStamp), says, None, ["fileTrailer", Decimal(|says|)])
  }

  lemma ReadFramed(runNumber: nat, timeStamp: string, source: string, middle: seq<Record>, count: nat, says: seq<Transaction>)
    requires ReadRecords(middle, Reader(HeaderLine(source, runNumber, timeStamp), [], None, [])) ==
             Reader(HeaderLine(source, runNumber, timeStamp), says, None, [])
    requires count == |says|
    ensures ReadRecords([Header(source, runNumber, timeStamp)] + middle + [FileTrailer(count)], UNREAD) ==
            Saying(source, runNumber, timeStamp, says)
  {
    var header := Header(source, runNumber, timeStamp);
    var s1 := UNREAD.(header := HeaderLine(source, runNumber, timeStamp));
    HeaderRead(runNumber, timeStamp, source);
    ReadOne(header, UNREAD);
    ReadOne(FileTrailer(count), s1.(done := says));
    TrailerRead(count, s1.(done := says));
    hide RecordFields, ReadRecords, ReadFields;
    ReadRecordsAppend([header], middle, UNREAD);
    ReadRecordsAppend([header] + middle, [FileTrailer(count)], UNREAD);
  }

  lemma HeaderRead(runNumber: nat, timeStamp: string, source: string)
    ensures ReadFields(RecordFields(Header(source, runNumber, timeStamp)), UNREAD) ==
            UNREAD.(header := HeaderLine(source, runNumber, timeStamp))
  {
    hide Decimal;
  }

  lemma TrailerRead(count: nat, s: Reader)
    ensures ReadFields(RecordFields(FileTrailer(count)), s) == s.(trailer := ["fileTrailer", Decimal(count)])
  {
    hide Decimal;
  }

  lemma OriginIs(licences: Licences, system: V.System)
    requires SystemOf(licences, system)
    ensures SourceName(system) == Origin(licences)
  {
  }

  /**
   For every list of payloads on which generation succeeds, whatever its texts are: reading the
   emitted records column by column gives the file's header, what each payload says in order and
   nothing else, and the number of transactions.
   */
  lemma RecordsSay(licences: Licences, runNumber: nat, timeStamp: string, system: V.System)
    requires SystemOf(licences, system) && AllGenerate(licences)
    ensures ReadRecords(NumberedRecords(licences, runNumber, timeStamp, system), UNREAD) ==
            Saying(Origin(licences), runNumber, timeStamp, Says(licences, 0))
  {
    hide *;
    OriginIs(licences, system);
    NumberedRecordsAre(licences, runNumber, timeStamp, system);
    var blocks := BlocksFrom(licences, 0);
    var s := Reader(HeaderLine(Origin(licences), runNumber, timeStamp), [], None, []);
    ReadSizedBlocks(blocks, s);
    ReadPayloads(licences, 0, s);
    BlocksFromShape(licences, 0);
    assert [] + Says(licences, 0) == Says(licences, 0);
    ReadFramed(runNumber, timeStamp, Origin(licences), Concat(SizedBlocks(blocks)), TransactionsFrom(licences, 0), Says(licences, 0));
  }

  /** The same of the printed text, for payloads whose texts hold no field or line separator. */
  lemma FileSays(licences: Licences, runNumber: nat, timeStamp: string, system: V.System)
    requires SystemOf(licences, system) && AllGenerate(licences) && AllSafe(licences) && Safe(timeStamp)
    ensures var text := FormatLines(LicenceRecords(licences, runNumber, timeStamp, system));
            text.Some? && ReadFile(text.value) == Saying(Origin(licences), runNumber, timeStamp, Says(licences, 0))
  {
    hide *;
    RecordsSay(licences, runNumber, timeStamp, system);
    FileTextIs(licences, runNumber, timeStamp, system, _ => true);
    ReadPrinted(NumberedRecords(licences, runNumber, timeStamp, system), 1, UNREAD);
    ReadFileIs(FormatLines(LicenceRecords(licences, runNumber, timeStamp, system)).value);
  }

  /** The same of every file that is written. */
  lemma WrittenFileSays(licences: Licences, runNumber: nat, timeStamp: string, system: V.System, postcodeOk: string -> bool)
    requires SystemOf(licences, system) && AllSafe(licences) && Safe(timeStamp)
    ensures var file := Edifact(licences, runNumber, timeStamp, system, postcodeOk);
            file.Written? ==> ReadFile(file.text) == Saying(Origin(licences), runNumber, timeStamp, Says(licences, 0))
  {
    hide *;
    WrittenIsGenerated(licences, runNumber, timeStamp, system, postcodeOk);
    if Edifact(licences, runNumber, timeStamp, system, postcodeOk).Written? {
      FileSays(licences, runNumber, timeStamp, system);
    }
  }

  lemma ReadFileIs(text: string)
    ensures ReadFile(text) == ReadLines(Split(text, LINE_SEP), UNREAD)
  {
  }

  lemma WrittenIsGenerated(licences: Licences, runNumber: nat, timeStamp: string, system: V.System, postcodeOk: string -> bool)
    ensures var file := Edifact(licences, runNumber, timeStamp, system, postcodeOk);
            file.Written? ==>
              AllGenerate(licences) && FormatLines(LicenceRecords(licences, runNumber, timeStamp, system)) == Some(file.text)
  {
    hide FormatLines, LicenceRecords, AllGenerate, V.FileErrors, Split;
  }

  // ---------------------------------------------------------------- the mapping rows

  /** The goods up to and including the first whose unit has no code. */
  predicate Reached(goods: seq<Good>, k: nat)
    requires k < |goods|
  {
    forall j :: 0 <= j < k ==> ChiefUnit(goods[j].unit).Some?
  }

  lemma ReachedLater(goods: seq<Good>, k: nat)
    requires k + 1 < |goods|
    ensures Reached(goods, k + 1) <==> ChiefUnit(goods[0].unit).Some? && Reached(goods[1..], k)
  {
    hide ChiefUnit;
    assert forall j :: 0 <= j < |goods[1..]| ==> goods[1..][j] == goods[j + 1];
    if ChiefUnit(goods[0].unit).Some? && Reached(goods[1..], k) {
      forall j | 0 <= j < k + 1
        ensures ChiefUnit(goods[j].unit).Some?
      {
        assert j > 0 ==> goods[1..][j - 1] == goods[j];
      }
    }
  }

  /** One row for each good that is reached, numbered as in the file, also when generation raises. */
  lemma {:induction false} GoodRowsAre(reference: string, goods: seq<Good>, line: nat, row: GoodRow)
    ensures row in GoodRows(reference, goods, line) <==>
            exists k :: 0 <= k < |goods| && Reached(goods, k) && row == GoodRow(goods[k].id, reference, line + k)
  {
    if goods != [] {
      var rest := goods[1..];
      GoodRowsAre(reference, rest, line + 1, row);
      UnitCodeIs(goods[0].unit);
      assert GoodRecord(goods[0], line).None? <==> ChiefUnit(goods[0].unit).None? by { hide ThreeDigits, Decimal; }
      assert Reached(goods, 0);
      hide GoodRecord, UnitCode, Reached;
      if k :| 0 <= k < |rest| && Reached(rest, k) && row == GoodRow(rest[k].id, reference, line + 1 + k) {
        ReachedLater(goods, k);
        assert rest[k] == goods[k + 1] && line + 1 + k == line + (k + 1);
        if ChiefUnit(goods[0].unit).Some? {
          assert Reached(goods, k + 1);
        }
      }
      if k :| 0 < k < |goods| && Reached(goods, k) && row == GoodRow(goods[k].id, reference, line + k) {
        ReachedLater(goods, k - 1);
        assert rest[k - 1] == goods[k] && Reached(rest, k - 1) && line + 1 + (k - 1) == line + k;
      }
      if row == GoodRow(goods[0].id, reference, line) {
        assert row == GoodRow(goods[0].id, reference, line + 0);
      }
    }
  }

  lemma {:induction false} AllReached(goods: seq<Good>, line: nat)
    requires GoodRecords(goods, line).Some?
    ensures forall k :: 0 <= k < |goods| ==> ChiefUnit(goods[k].unit).Some?
  {
    if goods != [] {
      UnitCodeIs(goods[0].unit);
      AllReached(goods[1..], line + 1);
      hide ThreeDigits, Decimal, ChiefUnit;
      assert forall k :: 0 < k < |goods| ==> goods[k] == goods[1..][k - 1];
    }
  }

  /** What is known of a payload whose generation succeeds. */
  lemma GeneratedParts(p: LitePayload, history: seq<LitePayload>)
    requires GenerateLinesForLicence(p, history).Some? && p.action != Cancel
    ensures p.action == Update ==> CancelOldBlock(p, history).Some?
    ensures OwnHeader(p).Some? && TraderRecord(p.data).Some?
    ensures IsStandard(p.data.licenceType) ==> GoodRecords(p.data.goods, 1).Some?
  {
    hide TransactionReference, ChiefType, Date, Destinations, EndUserRecords, GoodRecords;
  }

  /** A licence that is generated maps each of its goods to the line number the good has in the file. */
  lemma GoodsAreMappedToTheirLines(p: LitePayload, history: seq<LitePayload>, row: GoodRow)
    requires GenerateLinesForLicence(p, history).Some? && p.action != Cancel
    ensures row in LicenceRows(p, history) <==>
            p.data.licenceType in {"siel", "sicl", "sitl"}
            && exists k :: 0 <= k < |p.data.goods| && row == GoodRow(p.data.goods[k].id, p.reference, 1 + k)
    ensures p.data.licenceType in {"siel", "sicl", "sitl"} ==>
              |LiteItems(p.data)| == |p.data.goods|
              && forall k :: 0 <= k < |p.data.goods| ==> LiteItems(p.data)[k].line == Decimal(k + 1)
  {
    hide *;
    GeneratedParts(p, history);
    RowsAreGoodRows(p, history);
    if p.data.licenceType in {"siel", "sicl", "sitl"} {
      StandardItems(p.data);
      AllReached(p.data.goods, 1);
      GoodRowsAre(p.reference, p.data.goods, 1, row);
      EachReached(p.data.goods);
    }
  }

  lemma EachReached(goods: seq<Good>)
    requires forall k :: 0 <= k < |goods| ==> ChiefUnit(goods[k].unit).Some?
    ensures forall k :: 0 <= k < |goods| ==> Reached(goods, k)
  {
    hide ChiefUnit;
  }

  lemma RowsAreGoodRows(p: LitePayload, history: seq<LitePayload>)
    requires p.action != Cancel && OwnHeader(p).Some? && TraderRecord(p.data).Some?
    requires p.action == Update ==> CancelOldBlock(p, history).Some?
    ensures LicenceRows(p, history) == if IsStandard(p.data.licenceType) then GoodRows(p.reference, p.data.goods, 1) else {}
    ensures IsStandard(p.data.licenceType) <==> p.data.licenceType in {"siel", "sicl", "sitl"}
  {
    hide OwnHeader, TraderRecord, CancelOldBlock, GoodRows;
  }

  lemma StandardItems(d: LiteData)
    requires d.licenceType in {"siel", "sicl", "sitl"}
    ensures |LiteItems(d)| == |d.goods| && forall k :: 0 <= k < |d.goods| ==> LiteItems(d)[k].line == Decimal(k + 1)
  {
    hide Decimal, Printed, Padded;
  }

  /** The rows of a whole file: those of every payload before which all others generate. */
  lemma {:induction false} FileRowsAre(licences: Licences, k: nat, row: GoodRow)
    requires licences.FromLite? && k <= Size(licences)
    ensures row in RowsFrom(licences, k) <==>
            exists i :: k <= i < Size(licences) && row in LicenceRows(licences.lite[i], licences.history)
                        && forall j :: k <= j < i ==> LinesOf(licences, j).Some?
    decreases Size(licences) - k
  {
    hide LicenceRows, LinesOf;
    if k < Size(licences) {
      FileRowsAre(licences, k + 1, row);
      if i :| k + 1 <= i < Size(licences) && row in LicenceRows(licences.lite[i], licences.history)
              && forall j :: k + 1 <= j < i ==> LinesOf(licences, j).Some? {
        assert LinesOf(licences, k).Some? ==> forall j :: k <= j < i ==> LinesOf(licences, j).Some?;
      }
      if i :| k < i < Size(licences) && row in LicenceRows(licences.lite[i], licences.history)
              && forall j :: k <= j < i ==> LinesOf(licences, j).Some? {
        assert LinesOf(licences, k).Some? && forall j :: k + 1 <= j < i ==> LinesOf(licences, j).Some?;
      }
    }
  }
}
