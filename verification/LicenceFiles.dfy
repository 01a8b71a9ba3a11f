/**
 Licence payloads as CHIEF records (mail/libraries/lite_to_edifact_converter.py).

 Addresses are the lines the sanitizers leave: wrapping and transliteration are not part of
 this model. An absent key of a payload is `None`, or `""` where the code treats both alike.
 */
module LicenceFiles {
  import opened Text
  import opened ChiefProtocol

  // ---------------------------------------------------------------- payloads

  datatype Action = Insert | Cancel | Update | Replace

  datatype Organisation = Organisation(
    eori: string, name: Option<string>,
    address1: Option<string>, address2: string, address3: string, address4: string, address5: string,
    postcode: Option<string>)

  datatype EndUser = EndUser(
    name: Option<string>, line1: Option<string>, line2: string, line3: string, line4: string, line5: string,
    postcode: string, country: string)

  /** A JSON number: its text, and what `int()` makes of it. */
  datatype Quantity = Quantity(text: string, whole: nat)

  datatype Good = Good(id: string, name: Option<string>, unit: string, quantity: Quantity)

  /** The data of a LITE payload. */
  datatype LiteData = LiteData(
    licenceType: string, startDate: Option<string>, endDate: Option<string>, organisation: Organisation,
    countryGroup: string, countries: seq<string>, endUser: Option<EndUser>, goods: seq<Good>)

  /** A LicencePayload row. */
  datatype LitePayload = LitePayload(action: Action, reference: string, oldReference: string, data: LiteData)

  /** GoodIdMapping. */
  datatype GoodRow = GoodRow(liteId: string, licence: string, line: nat)

  function ActionText(a: Action): string {
    match a
    case Insert => "insert"
    case Cancel => "cancel"
    case Update => "update"
    case Replace => "replace"
  }

  /** LITE_HMRC_LICENCE_TYPE_MAPPING. */
  function ChiefType(licenceType: string): Option<string> {
    if licenceType in {"siel", "sicl", "sitl"} then Some("SIE")
    else if licenceType == "oiel" then Some("OIE")
    else if licenceType in {"ogel", "ogcl", "ogtl"} then Some("OGE")
    else if licenceType in {"DFL", "SIL"} then Some("SIL")
    else if licenceType == "OIL" then Some("OIL")
    else if licenceType == "SAN" then Some("SAN")
    else None
  }

  predicate IsStandard(licenceType: string) {
    licenceType in {"siel", "sicl", "sitl"}
  }

  predicate IsOpen(licenceType: string) {
    licenceType in {"oiel", "oicl"}
  }

  /** UnitMapping; `None` is `KeyError`. */
  function UnitCode(unit: string): Option<nat> {
    if unit == "NAR" || unit == "ITG" then Some(30)
    else if unit == "GRM" then Some(21)
    else if unit == "KGM" then Some(23)
    else if unit == "MTK" then Some(45)
    else if unit == "MTR" then Some(57)
    else if unit == "LTR" then Some(76)
    else if unit == "MTQ" then Some(87)
    else if unit == "MLT" || unit == "MIR" then Some(74)
    else if unit == "MGM" || unit == "MIM" then Some(111)
    else if unit == "TON" then Some(25)
    else if unit == "MCG" || unit == "MCM" then Some(116)
    else if unit == "MCL" || unit == "MCR" then Some(110)
    else None
  }

  /** `"{:03d}".format(n)`. */
  function ThreeDigits(n: nat): string {
    if n < 10 then "00" + Decimal(n) else if n < 100 then "0" + Decimal(n) else Decimal(n)
  }

  // ---------------------------------------------------------------- references and dates

  function Remove(s: string, c: char): string {
    if s == "" then "" else if s[0] == c then Remove(s[1..], c) else [s[0]] + Remove(s[1..], c)
  }

  /** `value.replace("-", "")`; `None` is the exception on an absent date. */
  function Date(value: Option<string>): Option<string> {
    match value
    case None => None
    case Some(s) => Some(Remove(s, '-'))
  }

  function FromFirstDigit(s: string): Option<string> {
    if s == "" then None else if IsDigit(s[0]) then Some(s) else FromFirstDigit(s[1..])
  }

  /** `get_transaction_reference`; `None` is `IndexError` or `ValueError`. */
  function TransactionReference(reference: string): Option<string> {
    if |reference| >= 2 && reference[..2] == "GB" then
      match AfterFirst(reference, '/')
      case None => None
      case Some(rest) => Some(Remove(rest, '/'))
    else
      match FromFirstDigit(reference)
      case None => None
      case Some(rest) => Some(Remove(rest, '-'))
  }

  /** `get_country_id`: the territory code is dropped. */
  function CountryId(country: string): string {
    Split(country, '-')[0]
  }

  /** `get_previous_licence_payload`: the latest row with the reference must be an insert; `None` is an exception. */
  function PreviousPayload(history: seq<LitePayload>, reference: string): Option<LiteData> {
    if history == [] then None
    else
      var last := history[|history| - 1];
      if last.reference != reference then PreviousPayload(history[..|history| - 1], reference)
      else if last.action == Insert then Some(last.data)
      else None
  }

  // ---------------------------------------------------------------- records of one licence

  function LicenceRecord(transaction: Option<string>, action: string, reference: string, licenceType: Option<string>,
                         usage: string, start: Option<string>, end: Option<string>): Option<Record> {
    match (transaction, start, end)
    case (Some(t), Some(s), Some(e)) => Some(Licence(t, action, reference, licenceType, usage, s, e))
    case _ => None
  }

  function TraderRecord(d: LiteData): Option<Record> {
    match (Date(d.startDate), Date(d.endDate))
    case (Some(s), Some(e)) =>
      var o := d.organisation;
      Some(Trader(Some(o.eori), s, e, o.name, o.address1, Some(o.address2), Some(o.address3), Some(o.address4),
                  Some(o.address5), o.postcode))
    case _ => None
  }

  function CountryRecords(countries: seq<string>): seq<Record> {
    if countries == [] then []
    else [Country(Some(CountryId(countries[0])), None, "D")] + CountryRecords(countries[1..])
  }

  /** Where the goods may go: a group, else the countries; for a standard licence the end user's country. */
  function Destinations(d: LiteData): seq<Record> {
    if IsOpen(d.licenceType) then
      if d.countryGroup != "" then [Country(None, Some(d.countryGroup), "D")] else CountryRecords(d.countries)
    else if IsStandard(d.licenceType) && d.endUser.Some? then
      [Country(Some(CountryId(d.endUser.value.country)), None, "D")]
    else []
  }

  function EndUserRecords(endUser: Option<EndUser>): seq<Record> {
    match endUser
    case None => []
    case Some(u) => [ForeignTrader(u.name, u.line1, u.line2, u.line3, u.line4, u.line5, u.postcode, CountryId(u.country))]
  }

  const PROVISOS_TEXT := "Provisos may " + ("apply please " + "see licence")

  const OPEN_GOODS_TEXT := "Open Licence " + ("goods - see " + ("actual licence " + "for information"))

  const PROVISOS := Restrictions(PROVISOS_TEXT)

  const OPEN_GOODS := DataLine(1, None, Some(OPEN_GOODS_TEXT), "O", None, None)

  /** A good controlled by quantity; numbers of items are whole. */
  function GoodRecord(g: Good, line: nat): Option<Record> {
    match UnitCode(g.unit)
    case None => None
    case Some(code) =>
      var quantity := if code == 30 then Decimal(g.quantity.whole) else g.quantity.text;
      Some(DataLine(line, None, g.name, "Q", Some(ThreeDigits(code)), Some(quantity)))
  }

  function GoodRecords(goods: seq<Good>, line: nat): Option<seq<Record>> {
    if goods == [] then Some([])
    else
      match (GoodRecord(goods[0], line), GoodRecords(goods[1..], line + 1))
      case (Some(first), Some(rest)) => Some([first] + rest)
      case _ => None
  }

  /** The GoodIdMapping rows written for the goods before the first unknown unit, it included. */
  function GoodRows(reference: string, goods: seq<Good>, line: nat): set<GoodRow> {
    if goods == [] then {}
    else
      {GoodRow(goods[0].id, reference, line)}
      + (if GoodRecord(goods[0], line).None? then {} else GoodRows(reference, goods[1..], line + 1))
  }

  function GoodsOf(d: LiteData): Option<seq<Record>> {
    if IsStandard(d.licenceType) then GoodRecords(d.goods, 1) else Some([])
  }

  /** Everything between a licence's header and its `end` record. */
  function Details(d: LiteData): Option<seq<Record>> {
    match (TraderRecord(d), GoodsOf(d))
    case (Some(trader), Some(goods)) =>
      Some([trader] + Destinations(d) + EndUserRecords(d.endUser) + [PROVISOS] + goods
           + (if IsOpen(d.licenceType) then [OPEN_GOODS] else []))
    case _ => None
  }

  function Block(header: Option<Record>, details: Option<seq<Record>>): Option<seq<Record>> {
    match (header, details)
    case (Some(h), Some(d)) => Some([h] + d + [End(LICENCE, None)])
    case _ => None
  }

  /** The block CHIEF reads as one transaction on a licence. */
  function LiteBlock(action: Action, reference: string, d: LiteData): Option<seq<Record>> {
    Block(LicenceRecord(TransactionReference(reference), ActionText(action), reference, ChiefType(d.licenceType), "E",
                        Date(d.startDate), Date(d.endDate)),
          if action == Cancel then Some([]) else Details(d))
  }

  /** An update's first block: cancel the old licence, with the old payload's dates and the new one's type. */
  function CancelOldBlock(p: LitePayload, history: seq<LitePayload>): Option<seq<Record>> {
    match PreviousPayload(history, p.oldReference)
    case None => None
    case Some(previous) =>
      Block(LicenceRecord(TransactionReference(p.oldReference), "cancel", p.oldReference, ChiefType(p.data.licenceType), "E",
                          Date(previous.startDate), Date(previous.endDate)),
            Some([]))
  }

  /** `generate_lines_for_licence`; `None` is an exception. */
  function GenerateLinesForLicence(p: LitePayload, history: seq<LitePayload>): Option<seq<Record>> {
    if p.action == Update then
      match (CancelOldBlock(p, history), LiteBlock(Insert, p.reference, p.data))
      case (Some(cancel), Some(insert)) => Some(cancel + insert)
      case _ => None
    else LiteBlock(p.action, p.reference, p.data)
  }

  class GoodIdMappings {
    var rows: set<GoodRow>

    constructor ()
      ensures rows == {}
    {
      rows := {};
    }

    /** The goods loop of `generate_lines_for_licence`, with its `get_or_create` per good. */
    method GenerateGoods(reference: string, goods: seq<Good>) returns (r: Option<seq<Record>>)
      modifies this
      ensures r == GoodRecords(goods, 1)
      ensures rows == old(rows) + GoodRows(reference, goods, 1)
    {
      hide UnitCode, ThreeDigits, Decimal;
      var records: seq<Record> := [];
      assert goods[0..] == goods;
      assert GoodRecords(goods, 1).Some? ==> [] + GoodRecords(goods, 1).value == GoodRecords(goods, 1).value;
      for g := 0 to |goods|
        invariant match GoodRecords(goods[g..], g + 1)
                  case None => GoodRecords(goods, 1) == None
                  case Some(rest) => GoodRecords(goods, 1) == Some(records + rest)
        invariant rows + GoodRows(reference, goods[g..], g + 1) == old(rows) + GoodRows(reference, goods, 1)
      {
        assert goods[g..][0] == goods[g] && goods[g..][1..] == goods[g + 1..];
        var commodity := goods[g];
        rows := rows + {GoodRow(commodity.id, reference, g + 1)};
        var unit := UnitCode(commodity.unit);
        if unit.None? {
          return None;
        }
        var quantity := commodity.quantity.text;
        if unit.value == 30 {
          quantity := Decimal(commodity.quantity.whole);
        }
        var record := DataLine(g + 1, None, commodity.name, "Q", Some(ThreeDigits(unit.value)), Some(quantity));
        if GoodRecords(goods[g + 1..], g + 2).Some? {
          Assoc(records, [record], GoodRecords(goods[g + 1..], g + 2).value);
        }
        records := records + [record];
      }
      assert records + [] == records;
      return Some(records);
    }

    /** What is yielded between a licence's header and its `end` record, unless it is cancelled. */
    method GenerateDetails(reference: string, d: LiteData) returns (r: Option<seq<Record>>)
      modifies this
      ensures r == Details(d)
      ensures rows == old(rows) + DetailRows(reference, d)
    {
      hide Date, CountryRecords, GoodRecords, GoodRows, CountryId;
      var trader := TraderRecord(d);
      if trader.None? {
        return None;
      }
      var lines := [trader.value];
      var destinations := GenerateDestinations(d);
      lines := lines + destinations;
      if d.endUser.Some? {
        var u := d.endUser.value;
        lines := lines + [ForeignTrader(u.name, u.line1, u.line2, u.line3, u.line4, u.line5, u.postcode, CountryId(u.country))];
      }
      NothingAdded(lines);
      lines := lines + [PROVISOS];
      var goods := Some([]);
      NoGoods(reference);
      if d.goods != [] && IsStandard(d.licenceType) {
        goods := GenerateGoods(reference, d.goods);
        if goods.None? {
          return None;
        }
      }
      lines := lines + goods.value;
      NothingAdded(lines);
      if IsOpen(d.licenceType) {
        lines := lines + [OPEN_GOODS];
      }
      return Some(lines);
    }

    /**
     `generate_lines_for_licence`: an update yields a cancel header, its end, and an insert header;
     any other action its own header; and then all of them go on in the same way.
     */
    method GenerateLines(p: LitePayload, history: seq<LitePayload>) returns (r: Option<seq<Record>>)
      modifies this
      ensures r == GenerateLinesForLicence(p, history)
      ensures rows == old(rows) + LicenceRows(p, history)
      ensures p.action == Update && r.Some? ==>
                && CancelOldBlock(p, history).Some? && GenerateLinesForLicence(p.(action := Insert), history).Some?
                && r.value == CancelOldBlock(p, history).value + GenerateLinesForLicence(p.(action := Insert), history).value
    {
      hide Details, TransactionReference, PreviousPayload, Date, DetailRows, LicenceRecord, ChiefType;
      var d := p.data;
      var licenceType := ChiefType(d.licenceType);
      var lines: seq<Record> := [];
      ghost var front: seq<Record> := [];
      if p.action == Update {
        var previous := PreviousPayload(history, p.oldReference);
        if previous.None? {
          return None;
        }
        var cancel := LicenceRecord(TransactionReference(p.oldReference), "cancel", p.oldReference, licenceType, "E",
                                    Date(previous.value.startDate), Date(previous.value.endDate));
        if cancel.None? {
          return None;
        }
        lines := lines + [cancel.value];
        lines := lines + [End(LICENCE, None)];
        front := lines;
        assert front == CancelOldBlock(p, history).value;
        var insert := LicenceRecord(TransactionReference(p.reference), "insert", p.reference, licenceType, "E",
                                    Date(d.startDate), Date(d.endDate));
        if insert.None? {
          return None;
        }
        lines := lines + [insert.value];
      } else {
        var header := LicenceRecord(TransactionReference(p.reference), ActionText(p.action), p.reference, licenceType, "E",
                                    Date(d.startDate), Date(d.endDate));
        if header.None? {
          return None;
        }
        lines := lines + [header.value];
      }
      assert lines == front + [OwnHeader(p).value];
      var details := Some([]);
      NothingAdded(lines);
      if p.action != Cancel {
        details := GenerateDetails(p.reference, d);
        if details.None? {
          return None;
        }
        lines := lines + details.value;
      }
      lines := lines + [End(LICENCE, None)];
      EmittedIs(p, history, front, details.value);
      return Some(lines);
    }
  }

  lemma NothingAdded(lines: seq<Record>)
    ensures lines + [] == lines
  {
  }

  lemma NoGoods(reference: string)
    ensures GoodRecords([], 1) == Some([]) && GoodRows(reference, [], 1) == {}
  {
  }

  /** The header of the licence a payload is about. */
  function OwnHeader(p: LitePayload): Option<Record> {
    LicenceRecord(TransactionReference(p.reference), if p.action == Update then "insert" else ActionText(p.action),
                  p.reference, ChiefType(p.data.licenceType), "E", Date(p.data.startDate), Date(p.data.endDate))
  }

  /** The lines as the code appends them, after `front`, are the payload's blocks. */
  lemma EmittedIs(p: LitePayload, history: seq<LitePayload>, front: seq<Record>, details: seq<Record>)
    requires OwnHeader(p).Some?
    requires if p.action == Update then CancelOldBlock(p, history) == Some(front) else front == []
    requires if p.action == Cancel then details == [] else Details(p.data) == Some(details)
    ensures GenerateLinesForLicence(p, history) == Some(front + [OwnHeader(p).value] + details + [End(LICENCE, None)])
  {
    hide *;
    OwnBlockIs(p, if p.action == Update then Insert else p.action, details);
    GeneratedIs(p, history);
    Grouped(front, [OwnHeader(p).value], details, [End(LICENCE, None)]);
  }

  lemma Grouped(a: seq<Record>, b: seq<Record>, c: seq<Record>, d: seq<Record>)
    ensures a + b + c + d == a + (b + c + d)
    ensures a == [] ==> a + (b + c + d) == b + c + d
  {
  }

  lemma GeneratedIs(p: LitePayload, history: seq<LitePayload>)
    ensures p.action == Update && CancelOldBlock(p, history).Some? && LiteBlock(Insert, p.reference, p.data).Some? ==>
              GenerateLinesForLicence(p, history) ==
              Some(CancelOldBlock(p, history).value + LiteBlock(Insert, p.reference, p.data).value)
    ensures p.action != Update ==> GenerateLinesForLicence(p, history) == LiteBlock(p.action, p.reference, p.data)
  {
    hide CancelOldBlock, LiteBlock;
  }

  lemma OwnBlockIs(p: LitePayload, action: Action, details: seq<Record>)
    requires OwnHeader(p).Some? && action == (if p.action == Update then Insert else p.action)
    requires if p.action == Cancel then details == [] else Details(p.data) == Some(details)
    ensures LiteBlock(action, p.reference, p.data) == Some([OwnHeader(p).value] + details + [End(LICENCE, None)])
  {
    hide Details, LicenceRecord, TransactionReference, Date;
  }

  /** The destinations of the goods, as the branches on the licence type yield them. */
  method GenerateDestinations(d: LiteData) returns (lines: seq<Record>)
    ensures lines == Destinations(d)
  {
    lines := [];
    if IsOpen(d.licenceType) {
      if d.countryGroup != "" {
        lines := [Country(None, Some(d.countryGroup), "D")];
      } else {
        lines := GenerateCountries(d.countries);
      }
    } else if IsStandard(d.licenceType) {
      if d.endUser.Some? {
        lines := [Country(Some(CountryId(d.endUser.value.country)), None, "D")];
      }
    }
  }

  method GenerateCountries(countries: seq<string>) returns (lines: seq<Record>)
    ensures lines == CountryRecords(countries)
  {
    lines := [];
    assert countries[0..] == countries;
    for k := 0 to |countries|
      invariant lines + CountryRecords(countries[k..]) == CountryRecords(countries)
    {
      assert countries[k..][1..] == countries[k + 1..];
      var line := Country(Some(CountryId(countries[k])), None, "D");
      Assoc(lines, [line], CountryRecords(countries[k + 1..]));
      lines := lines + [line];
    }
    assert lines + [] == lines;
  }

  /** The GoodIdMapping rows written for a licence's details. */
  function DetailRows(reference: string, d: LiteData): set<GoodRow> {
    if TraderRecord(d).Some? && IsStandard(d.licenceType) then GoodRows(reference, d.goods, 1) else {}
  }

  /** The rows written for a payload: none when it raises before its goods. */
  function LicenceRows(p: LitePayload, history: seq<LitePayload>): set<GoodRow> {
    if p.action == Cancel || (p.action == Update && CancelOldBlock(p, history).None?) || OwnHeader(p).None? then {}
    else DetailRows(p.reference, p.data)
  }

  // ---------------------------------------------------------------- ICMS payloads

  datatype IcmsGood = IcmsGood(commodity: string, description: string, controlledBy: string, unit: string, quantity: string)

  datatype IcmsData = IcmsData(
    licenceType: string, caseReference: string, licenceReference: string, startDate: string, endDate: string,
    eori: Option<string>, traderStart: string, traderEnd: string, name: Option<string>,
    address1: Option<string>, address2: Option<string>, address3: Option<string>, address4: Option<string>,
    address5: Option<string>, postcode: Option<string>,
    countryGroup: string, countryCode: string, restrictions: string, goods: seq<IcmsGood>)

  datatype IcmsPayload = IcmsPayload(action: Action, data: IcmsData)

  function ReplaceChar(s: string, a: char, b: char): string {
    if s == "" then "" else [if s[0] == a then b else s[0]] + ReplaceChar(s[1..], a, b)
  }

  /** `_get_controlled_by_kwargs`: unit and quantity only when controlled by quantity; `None` is `ValueError`. */
  function ControlledGood(line: nat, commodity: Option<string>, description: Option<string>, g: IcmsGood): Option<Record> {
    if g.controlledBy != "Q" then Some(DataLine(line, commodity, description, g.controlledBy, None, None))
    else
      match ParseInt(g.unit)
      case None => None
      case Some(unit) =>
        if unit < 0 then None
        else Some(DataLine(line, commodity, description, g.controlledBy, Some(ThreeDigits(unit)), Some(g.quantity)))
  }

  function IcmsGoodRecord(licenceType: string, line: nat, g: IcmsGood): Option<Record> {
    if licenceType == "SAN" then ControlledGood(line, Some(g.commodity), None, g)
    else if licenceType == "SIL" then ControlledGood(line, None, Some(g.description), g)
    else Some(DataLine(line, None, Some(g.description), "O", None, None))
  }

  /** `get_goods`. */
  function GetGoods(licenceType: string, goods: seq<IcmsGood>, line: nat): Option<seq<Record>> {
    if goods == [] then Some([])
    else
      match (IcmsGoodRecord(licenceType, line, goods[0]), GetGoods(licenceType, goods[1..], line + 1))
      case (Some(first), Some(rest)) => Some([first] + rest)
      case _ => None
  }

  function IcmsDetails(d: IcmsData): Option<seq<Record>> {
    match GetGoods(d.licenceType, d.goods, 1)
    case None => None
    case Some(goods) =>
      var trader := Trader(d.eori, Remove(d.traderStart, '-'), Remove(d.traderEnd, '-'), d.name,
                           d.address1, d.address2, d.address3, d.address4, d.address5, d.postcode);
      var country := if d.countryGroup != "" then [Country(None, Some(d.countryGroup), "O")]
                     else if d.countryCode != "" then [Country(Some(d.countryCode), None, "O")]
                     else [];
      Some([trader] + country + [Restrictions(Strip(ReplaceChar(d.restrictions, '\n', '|')))] + goods)
  }

  /** `generate_lines_for_icms_licence`; `None` is an exception. */
  function GenerateLinesForIcmsLicence(p: IcmsPayload): Option<seq<Record>> {
    var d := p.data;
    if ChiefType(d.licenceType).None? || (p.action != Insert && p.action != Replace) then None
    else
      Block(Some(Licence(d.caseReference, ActionText(p.action), d.licenceReference, ChiefType(d.licenceType), "I",
                         Remove(d.startDate, '-'), Remove(d.endDate, '-'))),
            IcmsDetails(d))
  }

  /** `generate_lines_for_icms_licence`. */
  method GenerateIcmsLines(p: IcmsPayload) returns (r: Option<seq<Record>>)
    ensures r == GenerateLinesForIcmsLicence(p)
  {
    hide ChiefType, GetGoods, Remove, Strip, ReplaceChar, ActionText;
    var d := p.data;
    var chiefType := ChiefType(d.licenceType);
    if chiefType.None? {
      return None;
    }
    if p.action != Insert && p.action != Replace {
      return None;
    }
    var header := Licence(d.caseReference, ActionText(p.action), d.licenceReference, chiefType, "I",
                          Remove(d.startDate, '-'), Remove(d.endDate, '-'));
    var details := [Trader(d.eori, Remove(d.traderStart, '-'), Remove(d.traderEnd, '-'), d.name,
                           d.address1, d.address2, d.address3, d.address4, d.address5, d.postcode)];
    NothingAdded(details);
    if d.countryGroup != "" {
      details := details + [Country(None, Some(d.countryGroup), "O")];
    } else if d.countryCode != "" {
      details := details + [Country(Some(d.countryCode), None, "O")];
    }
    details := details + [Restrictions(Strip(ReplaceChar(d.restrictions, '\n', '|')))];
    var goods := GenerateIcmsGoods(d.licenceType, d.goods);
    if goods.None? {
      return None;
    }
    details := details + goods.value;
    return Some([header] + details + [End(LICENCE, None)]);
  }

  /** `get_goods`: one loop for each kind of licence. */
  method GenerateIcmsGoods(licenceType: string, goods: seq<IcmsGood>) returns (r: Option<seq<Record>>)
    ensures r == GetGoods(licenceType, goods, 1)
  {
    hide ParseInt, ThreeDigits;
    var lines: seq<Record> := [];
    assert goods[0..] == goods;
    ghost var whole := GetGoods(licenceType, goods, 1);
    NothingDone(whole);
    for k := 0 to |goods|
      invariant Then(lines, GetGoods(licenceType, goods[k..], k + 1)) == whole
    {
      assert goods[k..][0] == goods[k] && goods[k..][1..] == goods[k + 1..];
      var good := goods[k];
      var line: Option<Record>;
      if licenceType == "SAN" {
        line := ControlledGood(k + 1, Some(good.commodity), None, good);
      } else if licenceType == "SIL" {
        line := ControlledGood(k + 1, None, Some(good.description), good);
      } else {
        line := Some(DataLine(k + 1, None, Some(good.description), "O", None, None));
      }
      if line.None? {
        return None;
      }
      if GetGoods(licenceType, goods[k + 1..], k + 2).Some? {
        Assoc(lines, [line.value], GetGoods(licenceType, goods[k + 1..], k + 2).value);
      }
      lines := lines + [line.value];
    }
    assert lines + [] == lines;
    return Some(lines);
  }

  // ---------------------------------------------------------------- shape

  /** How many blocks an action makes. */
  function Transactions(p: LitePayload): nat {
    if p.action == Update then 2 else 1
  }

  function BlocksOf(p: LitePayload, history: seq<LitePayload>): seq<seq<Record>>
    requires GenerateLinesForLicence(p, history).Some?
  {
    if p.action == Update then [CancelOldBlock(p, history).value, LiteBlock(Insert, p.reference, p.data).value]
    else [LiteBlock(p.action, p.reference, p.data).value]
  }

  predicate AreDetails(records: seq<Record>) {
    forall k :: 0 <= k < |records| ==> IsDetail(records[k])
  }

  lemma BlockIsBlock(header: Option<Record>, details: Option<seq<Record>>)
    requires Block(header, details).Some? && header.value.Licence? && AreDetails(details.value)
    ensures IsBlock(Block(header, details).value)
  {
  }

  lemma {:induction false} CountriesAreDetails(countries: seq<string>)
    ensures AreDetails(CountryRecords(countries))
  {
    if countries != [] {
      CountriesAreDetails(countries[1..]);
    }
  }

  lemma {:induction false} GoodsAreDetails(goods: seq<Good>, line: nat)
    requires GoodRecords(goods, line).Some?
    ensures AreDetails(GoodRecords(goods, line).value)
  {
    if goods != [] {
      GoodsAreDetails(goods[1..], line + 1);
    }
  }

  lemma DetailsAreDetails(d: LiteData)
    requires Details(d).Some?
    ensures AreDetails(Details(d).value)
  {
    CountriesAreDetails(d.countries);
    if IsStandard(d.licenceType) {
      GoodsAreDetails(d.goods, 1);
    }
  }

  lemma LiteBlockIsBlock(action: Action, reference: string, d: LiteData)
    requires LiteBlock(action, reference, d).Some?
    ensures IsBlock(LiteBlock(action, reference, d).value)
  {
    if action != Cancel {
      DetailsAreDetails(d);
    }
    hide Details, TransactionReference, ChiefType, Date;
  }

  lemma CancelOldIsBlock(p: LitePayload, history: seq<LitePayload>)
    requires CancelOldBlock(p, history).Some?
    ensures IsBlock(CancelOldBlock(p, history).value)
  {
    hide TransactionReference, ChiefType, Date, PreviousPayload;
  }

  lemma ConcatFew(a: seq<Record>, b: seq<Record>)
    ensures Concat([b]) == b && Concat([a, b]) == a + b
  {
    assert [b][1..] == [] && [a, b][1..] == [b];
    assert b + [] == b;
  }

  /** What the generator emits is one block, or for an update two, each a licence header closed by its `end`. */
  lemma GeneratedBlocks(p: LitePayload, history: seq<LitePayload>)
    requires GenerateLinesForLicence(p, history).Some?
    ensures AreBlocks(BlocksOf(p, history))
    ensures Concat(BlocksOf(p, history)) == GenerateLinesForLicence(p, history).value
    ensures |BlocksOf(p, history)| == Transactions(p)
  {
    hide LiteBlock, CancelOldBlock, IsBlock, Concat;
    LiteBlockIsBlock(if p.action == Update then Insert else p.action, p.reference, p.data);
    var block := LiteBlock(if p.action == Update then Insert else p.action, p.reference, p.data).value;
    ConcatFew(block, block);
    if p.action == Update {
      CancelOldIsBlock(p, history);
      ConcatFew(CancelOldBlock(p, history).value, block);
    }
  }

  lemma {:induction false} IcmsGoodsAreDetails(licenceType: string, goods: seq<IcmsGood>, line: nat)
    requires GetGoods(licenceType, goods, line).Some?
    ensures AreDetails(GetGoods(licenceType, goods, line).value)
  {
    if goods != [] {
      IcmsGoodsAreDetails(licenceType, goods[1..], line + 1);
    }
  }

  lemma GeneratedIcmsBlock(p: IcmsPayload)
    requires GenerateLinesForIcmsLicence(p).Some?
    ensures IsBlock(GenerateLinesForIcmsLicence(p).value)
  {
    IcmsGoodsAreDetails(p.data.licenceType, p.data.goods, 1);
    assert AreDetails(IcmsDetails(p.data).value);
  }

  // ---------------------------------------------------------------- the file

  datatype Licences = FromLite(lite: seq<LitePayload>, history: seq<LitePayload>) | FromIcms(icms: seq<IcmsPayload>)

  function Size(licences: Licences): nat {
    match licences
    case FromLite(payloads, _) => |payloads|
    case FromIcms(payloads) => |payloads|
  }

  /** The records of the `k`-th payload. */
  function LinesOf(licences: Licences, k: nat): Option<seq<Record>>
    requires k < Size(licences)
  {
    match licences
    case FromLite(payloads, history) => GenerateLinesForLicence(payloads[k], history)
    case FromIcms(payloads) => GenerateLinesForIcmsLicence(payloads[k])
  }

  /** The rows written from the `k`-th payload on, up to the first that raises. */
  function RowsFrom(licences: Licences, k: nat): set<GoodRow>
    requires k <= Size(licences)
    decreases Size(licences) - k
  {
    if licences.FromIcms? || k == Size(licences) then {}
    else
      LicenceRows(licences.lite[k], licences.history)
      + if LinesOf(licences, k).None? then {} else RowsFrom(licences, k + 1)
  }

  predicate AllGenerate(licences: Licences) {
    forall k :: 0 <= k < Size(licences) ==> LinesOf(licences, k).Some?
  }

  /** The blocks of the payloads from the `k`-th on. */
  function BlocksFrom(licences: Licences, k: nat): seq<seq<Record>>
    requires k <= Size(licences) && AllGenerate(licences)
    decreases Size(licences) - k
  {
    if k == Size(licences) then []
    else
      assert LinesOf(licences, k).Some?;
      (match licences
       case FromLite(payloads, history) => BlocksOf(payloads[k], history)
       case FromIcms(payloads) => [GenerateLinesForIcmsLicence(payloads[k]).value])
      + BlocksFrom(licences, k + 1)
  }

  /** Payloads plus updates. */
  function TransactionsFrom(licences: Licences, k: nat): nat
    requires k <= Size(licences)
    decreases Size(licences) - k
  {
    if k == Size(licences) then 0
    else
      (match licences
       case FromLite(payloads, _) => Transactions(payloads[k])
       case FromIcms(_) => 1)
      + TransactionsFrom(licences, k + 1)
  }

  lemma {:induction false} BlocksFromShape(licences: Licences, k: nat)
    requires k <= Size(licences) && AllGenerate(licences)
    ensures AreBlocks(BlocksFrom(licences, k))
    ensures |BlocksFrom(licences, k)| == TransactionsFrom(licences, k)
    decreases Size(licences) - k
  {
    if k < Size(licences) {
      hide GenerateLinesForLicence, GenerateLinesForIcmsLicence, BlocksOf, IsBlock, Transactions;
      assert LinesOf(licences, k).Some?;
      match licences {
        case FromLite(payloads, history) => GeneratedBlocks(payloads[k], history);
        case FromIcms(payloads) => GeneratedIcmsBlock(payloads[k]);
      }
      BlocksFromShape(licences, k + 1);
    }
  }

  function Header(source: string, runNumber: nat, timeStamp: string): Record {
    FileHeader(source, "CHIEF", "licenceData", timeStamp, runNumber, "N")
  }
}
