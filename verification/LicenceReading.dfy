/**
 What a licence file says to whoever reads it column by column, in DES236's layout, and what it
 should say, written from the payloads it was made of.
 */
module LicenceReading {
  import opened Text
  import opened ChiefProtocol
  import opened LicenceFiles

  /** The columns of a line after its number. */
  type Fields = seq<string>

  datatype Holder = Holder(eori: string, startDate: string, endDate: string, name: string, address: seq<string>, postcode: string)

  datatype Destination = Destination(country: string, group: string, use: string)

  datatype Consignee = Consignee(name: string, address: seq<string>, postcode: string, country: string)

  datatype Item = Item(line: string, commodity: string, description: string, controlledBy: string, unit: string, quantity: string)

  datatype Terms = Terms(
    holders: seq<Holder>, destinations: seq<Destination>, consignees: seq<Consignee>, provisos: seq<string>, items: seq<Item>)

  /** One transaction of a licence file, every column as its text. */
  datatype Transaction = Transaction(
    reference: string, action: string, licence: string, licenceType: string, usage: string,
    startDate: string, endDate: string, terms: Terms)

  const NO_TERMS := Terms([], [], [], [], [])

  // ---------------------------------------------------------------- reading a file

  /** The header line, the transactions closed so far, the one being read, and the trailer line. */
  datatype Reader = Reader(header: Fields, done: seq<Transaction>, current: Option<Transaction>, trailer: Fields)

  const UNREAD := Reader([], [], None, [])

  /** No column from the `k`-th on is filled. */
  predicate EmptyFrom(t: Fields, k: nat) {
    forall i :: k <= i < |t| ==> t[i] == ""
  }

  /** A line of a licence; a line in no known layout adds nothing. */
  function WithLine(terms: Terms, t: Fields): Terms {
    if |t| == 12 && t[0] == "trader" && t[1] == "" then
      terms.(holders := terms.holders + [Holder(t[2], t[3], t[4], t[5], t[6..11], t[11])])
    else if |t| == 4 && t[0] == "country" then
      terms.(destinations := terms.destinations + [Destination(t[1], t[2], t[3])])
    else if |t| == 9 && t[0] == "foreignTrader" then
      terms.(consignees := terms.consignees + [Consignee(t[1], t[2..7], t[7], t[8])])
    else if |t| == 2 && t[0] == "restrictions" then
      terms.(provisos := terms.provisos + [t[1]])
    else if |t| == 18 && t[0] == "line" && t[3] == t[4] == t[5] == t[8] == t[10] == "" && EmptyFrom(t, 12) then
      terms.(items := terms.items + [Item(t[1], t[2], t[6], t[7], t[9], t[11])])
    else terms
  }

  function ReadFields(t: Fields, s: Reader): Reader {
    if |t| == 7 && t[0] == "fileHeader" then s.(header := t)
    else if |t| == 2 && t[0] == "fileTrailer" then s.(trailer := t)
    else if |t| == 8 && t[0] == "licence" then
      s.(current := Some(Transaction(t[1], t[2], t[3], t[4], t[5], t[6], t[7], NO_TERMS)))
    else
      match s.current
      case None => s
      case Some(c) =>
        if |t| == 3 && t[0] == "end" && t[1] == "licence" then s.(done := s.done + [c], current := None)
        else s.(current := Some(c.(terms := WithLine(c.terms, t))))
  }

  function ReadLines(lines: seq<string>, s: Reader): Reader {
    if lines == [] then s
    else if lines[0] == "" then ReadLines(lines[1..], s)
    else ReadLines(lines[1..], ReadFields(Split(lines[0], FIELD_SEP)[1..], s))
  }

  function ReadFile(text: string): Reader {
    ReadLines(Split(text, LINE_SEP), UNREAD)
  }

  // ---------------------------------------------------------------- what the payloads say

  function Joined(parts: seq<string>): string {
    if parts == [] then "" else parts[0] + Joined(parts[1..])
  }

  function Undashed(s: string): string {
    Joined(Split(s, '-'))
  }

  /** An absent value is printed as nothing. */
  function Printed(v: Option<string>): string {
    if v.Some? then v.value else ""
  }

  /** Where the first digit is, or the end. */
  function FirstDigit(s: string): (k: nat)
    ensures k <= |s|
    ensures forall i :: 0 <= i < k ==> !IsDigit(s[i])
    ensures k < |s| ==> IsDigit(s[k])
  {
    if s == "" || IsDigit(s[0]) then 0 else 1 + FirstDigit(s[1..])
  }

  /** Without the part before the first slash, or before the first digit, and without separators. */
  function ShortReference(reference: string): string {
    if "GB" <= reference then Joined(Split(reference, '/')[1..]) else Undashed(reference[FirstDigit(reference)..])
  }

  const CHIEF_TYPES: map<string, string> :=
    map["siel" := "SIE", "sicl" := "SIE", "sitl" := "SIE", "oiel" := "OIE", "ogel" := "OGE", "ogcl" := "OGE", "ogtl" := "OGE",
        "DFL" := "SIL", "OIL" := "OIL", "SIL" := "SIL", "SAN" := "SAN"]

  function TypeCode(licenceType: string): string {
    if licenceType in CHIEF_TYPES then CHIEF_TYPES[licenceType] else ""
  }

  /** CHIEF's number for a unit. */
  function ChiefUnit(unit: string): Option<nat> {
    match unit
    case "NAR" | "ITG" => Some(30)
    case "GRM" => Some(21)
    case "KGM" => Some(23)
    case "MTK" => Some(45)
    case "MTR" => Some(57)
    case "LTR" => Some(76)
    case "MTQ" => Some(87)
    case "MLT" | "MIR" => Some(74)
    case "MGM" | "MIM" => Some(111)
    case "TON" => Some(25)
    case "MCG" | "MCM" => Some(116)
    case "MCL" | "MCR" => Some(110)
    case _ => None
  }

  /** At least three digits. */
  function Padded(n: nat): string {
    var digits := Decimal(n);
    seq(if |digits| < 3 then 3 - |digits| else 0, _ => '0') + digits
  }

  /** The country without its territory. */
  function Region(country: string): string {
    Split(country, '-')[0]
  }

  const LITE_PROVISOS := Joined(["Provisos may ", "apply please ", "see licence"])

  const OPEN_ITEM := Item("1", "", Joined(["Open Licence ", "goods - see ", "actual licence ", "for information"]), "O", "", "")

  function LiteDestinations(d: LiteData): seq<Destination> {
    if d.licenceType in {"oiel", "oicl"} then
      if d.countryGroup != "" then [Destination("", d.countryGroup, "D")]
      else seq(|d.countries|, k requires 0 <= k < |d.countries| => Destination(Region(d.countries[k]), "", "D"))
    else if d.licenceType in {"siel", "sicl", "sitl"} && d.endUser.Some? then
      [Destination(Region(d.endUser.value.country), "", "D")]
    else []
  }

  function LiteConsignees(endUser: Option<EndUser>): seq<Consignee> {
    if endUser.None? then []
    else
      var u := endUser.value;
      [Consignee(Printed(u.name), [Printed(u.line1), u.line2, u.line3, u.line4, u.line5], u.postcode, Region(u.country))]
  }

  /** Only numbers of items are counted in whole units. */
  function LiteItem(g: Good, line: nat): Item {
    Item(Decimal(line), "", Printed(g.name), "Q", if ChiefUnit(g.unit).Some? then Padded(ChiefUnit(g.unit).value) else "",
         if g.unit in {"NAR", "ITG"} then Decimal(g.quantity.whole) else g.quantity.text)
  }

  function LiteItems(d: LiteData): seq<Item> {
    if d.licenceType in {"siel", "sicl", "sitl"} then
      seq(|d.goods|, k requires 0 <= k < |d.goods| => LiteItem(d.goods[k], k + 1))
    else if d.licenceType in {"oiel", "oicl"} then [OPEN_ITEM]
    else []
  }

  function LiteTerms(d: LiteData): Terms {
    var o := d.organisation;
    Terms([Holder(o.eori, Undashed(Printed(d.startDate)), Undashed(Printed(d.endDate)), Printed(o.name),
                  [Printed(o.address1), o.address2, o.address3, o.address4, o.address5], Printed(o.postcode))],
          LiteDestinations(d), LiteConsignees(d.endUser), [LITE_PROVISOS], LiteItems(d))
  }

  /** A transaction of LITE's: `period` is the payload its dates are those of. */
  function LiteTransaction(action: string, reference: string, d: LiteData, period: LiteData, terms: Terms): Transaction {
    Transaction(ShortReference(reference), action, reference, TypeCode(d.licenceType), "E",
                Undashed(Printed(period.startDate)), Undashed(Printed(period.endDate)), terms)
  }

  function LiteSays(p: LitePayload, history: seq<LitePayload>): seq<Transaction> {
    match p.action
    case Insert => [LiteTransaction("insert", p.reference, p.data, p.data, LiteTerms(p.data))]
    case Replace => [LiteTransaction("replace", p.reference, p.data, p.data, LiteTerms(p.data))]
    case Cancel => [LiteTransaction("cancel", p.reference, p.data, p.data, NO_TERMS)]
    case Update =>
      match PreviousPayload(history, p.oldReference)
      case None => []
      case Some(previous) =>
        [LiteTransaction("cancel", p.oldReference, p.data, previous, NO_TERMS),
         LiteTransaction("insert", p.reference, p.data, p.data, LiteTerms(p.data))]
  }

  function UnitText(unit: string): string {
    match ParseInt(unit)
    case None => ""
    case Some(n) => if n < 0 then "" else Padded(n)
  }

  /** Sanctions name a commodity, the others describe the goods; only some licences control a quantity. */
  function IcmsItem(licenceType: string, g: IcmsGood, line: nat): Item {
    if licenceType !in {"SAN", "SIL"} then Item(Decimal(line), "", g.description, "O", "", "")
    else
      var commodity, description := if licenceType == "SAN" then g.commodity else "", if licenceType == "SIL" then g.description else "";
      if g.controlledBy == "Q" then Item(Decimal(line), commodity, description, "Q", UnitText(g.unit), g.quantity)
      else Item(Decimal(line), commodity, description, g.controlledBy, "", "")
  }

  function IcmsTerms(d: IcmsData): Terms {
    Terms([Holder(Printed(d.eori), Undashed(d.traderStart), Undashed(d.traderEnd), Printed(d.name),
                  [Printed(d.address1), Printed(d.address2), Printed(d.address3), Printed(d.address4), Printed(d.address5)],
                  Printed(d.postcode))],
          if d.countryGroup != "" then [Destination("", d.countryGroup, "O")]
          else if d.countryCode != "" then [Destination(d.countryCode, "", "O")]
          else [],
          [], [Strip(Join(Split(d.restrictions, '\n'), '|'))],
          seq(|d.goods|, k requires 0 <= k < |d.goods| => IcmsItem(d.licenceType, d.goods[k], k + 1)))
  }

  function IcmsSays(p: IcmsPayload): Transaction {
    Transaction(p.data.caseReference, if p.action == Replace then "replace" else "insert", p.data.licenceReference,
                TypeCode(p.data.licenceType), "I", Undashed(p.data.startDate), Undashed(p.data.endDate), IcmsTerms(p.data))
  }

  /** What the payloads from the `k`-th on say, in order. */
  function Says(licences: Licences, k: nat): seq<Transaction>
    requires k <= Size(licences)
    decreases Size(licences) - k
  {
    if k == Size(licences) then []
    else
      (match licences
       case FromLite(payloads, history) => LiteSays(payloads[k], history)
       case FromIcms(payloads) => [IcmsSays(payloads[k])])
      + Says(licences, k + 1)
  }
}
