/**
 The generated licence file: what it contains, and exactly when it passes its own validation.
 */
module LicenceFileFacts {
  import opened Text
  import opened ChiefProtocol
  import opened LicenceFiles
  import V = EdifactValidator

  // ---------------------------------------------------------------- licences_to_edifact

  /** The file, the errors of an EdifactValidationError, or another exception. */
  datatype Outcome = Written(text: string) | Invalid(errors: V.Errors) | Raised

  function SourceName(system: V.System): string {
    if system == V.Spire then "SPIRE" else "ILBDOTI"
  }

  /** ICMS payloads are generated by the ICMS system, LITE's by the other. */
  predicate SystemOf(licences: Licences, system: V.System) {
    licences.FromIcms? <==> system == V.Icms
  }

  function Checked(text: string, system: V.System, postcodeOk: string -> bool): Outcome {
    match V.FileErrors(Split(text, LINE_SEP), "", system, postcodeOk)
    case None => Raised
    case Some(errors) => if errors == [] then Written(text) else Invalid(errors)
  }

  function LicenceRecords(licences: Licences, runNumber: nat, timeStamp: string, system: V.System): seq<Record>
    requires AllGenerate(licences)
  {
    FileRecords(Header(SourceName(system), runNumber, timeStamp), BlocksFrom(licences, 0))
  }

  function Edifact(licences: Licences, runNumber: nat, timeStamp: string, system: V.System, postcodeOk: string -> bool): Outcome {
    if !AllGenerate(licences) then Raised
    else
      match FormatLines(LicenceRecords(licences, runNumber, timeStamp, system))
      case None => Raised
      case Some(text) => Checked(text, system, postcodeOk)
  }

  /** The records of the payloads from the `k`-th on, as the generators yield them. */
  function RecordsFrom(licences: Licences, k: nat): Option<seq<Record>>
    requires k <= Size(licences)
    decreases Size(licences) - k
  {
    if k == Size(licences) then Some([])
    else
      match (LinesOf(licences, k), RecordsFrom(licences, k + 1))
      case (Some(first), Some(rest)) => Some(first + rest)
      case _ => None
  }

  lemma {:induction false} RecordsFromBlocks(licences: Licences, k: nat)
    requires k <= Size(licences)
    ensures AllGenerate(licences) ==> RecordsFrom(licences, k) == Some(Concat(BlocksFrom(licences, k)))
    ensures RecordsFrom(licences, k).None? ==> !AllGenerate(licences)
    ensures forall j :: k <= j < Size(licences) && LinesOf(licences, j).None? ==> RecordsFrom(licences, k).None?
    decreases Size(licences) - k
  {
    hide GenerateLinesForLicence, GenerateLinesForIcmsLicence, BlocksOf, Transactions;
    if k < Size(licences) {
      RecordsFromBlocks(licences, k + 1);
      if AllGenerate(licences) {
        assert LinesOf(licences, k).Some?;
        match licences {
          case FromLite(payloads, history) =>
            GeneratedBlocks(payloads[k], history);
            ConcatAppend(BlocksOf(payloads[k], history), BlocksFrom(licences, k + 1));
          case FromIcms(payloads) =>
            var block := GenerateLinesForIcmsLicence(payloads[k]).value;
            ConcatOne(block);
            ConcatAppend([block], BlocksFrom(licences, k + 1));
        }
      }
    }
  }

  lemma ConcatOne(block: seq<Record>)
    ensures Concat([block]) == block
  {
    assert [block][1..] == [];
    assert block + [] == block;
  }

  /** `licences_to_edifact`. */
  method LicencesToEdifact(licences: Licences, runNumber: nat, timeStamp: string, system: V.System, postcodeOk: string -> bool,
                           mappings: GoodIdMappings)
    returns (r: Outcome)
    requires SystemOf(licences, system)
    modifies mappings
    ensures mappings.rows == old(mappings.rows) + RowsFrom(licences, 0)
    ensures r == Edifact(licences, runNumber, timeStamp, system, postcodeOk)
  {
    hide GenerateLinesForLicence, GenerateLinesForIcmsLicence, BlocksFrom, FileRecords, FormatLines, CountTransactions, V.FileErrors, LicenceRows;
    RecordsFromBlocks(licences, 0);
    var header := Header(SourceName(system), runNumber, timeStamp);
    var records := [header];
    ghost var whole := RecordsFrom(licences, 0);
    assert whole.Some? ==> [header] + whole.value == [header] + ([] + whole.value);
    for k := 0 to Size(licences)
      invariant Then(records, RecordsFrom(licences, k)) == Then([header], whole)
      invariant mappings.rows + RowsFrom(licences, k) == old(mappings.rows) + RowsFrom(licences, 0)
    {
      var lines;
      match licences {
        case FromLite(payloads, history) => lines := mappings.GenerateLines(payloads[k], history);
        case FromIcms(payloads) => lines := GenerateIcmsLines(payloads[k]);
      }
      if lines.None? {
        return Raised;
      }
      ThenThen(records, lines.value, RecordsFrom(licences, k + 1));
      records := records + lines.value;
    }
    assert records + [] == records;
    records := records + [FileTrailer(CountTransactions(records))];
    FileRecordsAre(header, BlocksFrom(licences, 0));
    var objects := NewLines(records);
    var text := PrintLines(objects);
    if text.None? {
      return Raised;
    }
    var errors := V.ValidateEdifactFile(text.value, system, postcodeOk);
    if errors.None? {
      return Raised;
    }
    if errors.value != [] {
      return Invalid(errors.value);
    }
    return Written(text.value);
  }

  lemma ThenThen(a: seq<Record>, b: seq<Record>, rest: Option<seq<Record>>)
    ensures Then(a, Then(b, rest)) == Then(a + b, rest)
  {
    if rest.Some? {
      Assoc(a, b, rest.value);
    }
  }

  lemma FileRecordsAre(header: Record, blocks: seq<seq<Record>>)
    ensures FileRecords(header, blocks) == [header] + Concat(blocks) + [FileTrailer(CountTransactions([header] + Concat(blocks)))]
  {
  }

  /** Fresh record objects, none of them shared. */
  method NewLines(records: seq<Record>) returns (lines: seq<Line>)
    ensures fresh(lines) && NoSharing(lines) && Records(lines) == records
  {
    lines := [];
    for k := 0 to |records|
      invariant |lines| == k && fresh(lines) && NoSharing(lines)
      invariant forall i :: 0 <= i < k ==> lines[i].record == records[i]
    {
      var line := new Line(records[k]);
      lines := lines + [line];
    }
    assert Records(lines) == records;
  }

  // ---------------------------------------------------------------- which records pass

  predicate DatesOk(start: string, end: string) {
    V.DatesReversed(start, end) == Some(false)
  }

  predicate ShortLines(a: string, b: string, c: string, d: string, e: string) {
    |a| <= 35 && |b| <= 35 && |c| <= 35 && |d| <= 35 && |e| <= 35
  }

  /** What the validator asks of each record, in terms of its attributes. */
  predicate Conforms(r: Record, n: nat, dataId: string, system: V.System, postcodeOk: string -> bool) {
    match r
    case FileHeader(source, destination, id, _, _, reset) =>
      n == 1 && source != destination && V.ValidDataIdentifier(id) && (reset == "Y" || reset == "N")
    case FileTrailer(_) => true
    case End(_, _) => true
    case Licence(_, action, _, licenceType, usage, _, _) =>
      && (dataId == "licenceData" ==> V.ValidAction(action))
      && V.ValidLicenceType(Shown(licenceType))
      && (system == V.Spire ==> usage == "E")
    case Trader(rpa, start, end, name, a1, a2, a3, a4, a5, postcode) =>
      && Shown(rpa) != ""
      && (system == V.Spire ==> 12 <= |Shown(rpa)| <= 15)
      && DatesOk(start, end)
      && |Shown(name)| <= 80
      && ShortLines(Shown(a1), Shown(a2), Shown(a3), Shown(a4), Shown(a5))
      && postcodeOk(Shown(postcode))
    case Country(code, group, use) => (Shown(code) == "" || Shown(group) == "") && V.ValidCountryUse(use)
    case ForeignTrader(name, l1, l2, l3, l4, l5, postcode, country) =>
      |Shown(name)| <= 80 && ShortLines(Shown(l1), l2, l3, l4, l5) && |postcode| <= 8 && |country| <= 2
    case Restrictions(_) => true
    case DataLine(_, commodity, description, controlledBy, unit, _) =>
      controlledBy == "O"
      || (&& (Shown(description) != "" || (system == V.Icms && Shown(commodity) != ""))
          && V.ValidControl(controlledBy)
          && (system == V.Spire ==> |Shown(unit)| == 3))
  }

  lemma {:induction false} LongLinesNone(lines: seq<string>, recordType: string)
    ensures V.LongLines(lines, recordType) == [] <==> forall k :: 0 <= k < |lines| ==> |lines[k]| <= 35
  {
    if lines != [] {
      LongLinesNone(lines[1..], recordType);
      assert forall k :: 0 <= k < |lines[1..]| ==> lines[1..][k] == lines[k + 1];
      if V.LongLines(lines, recordType) == [] {
        forall k | 0 <= k < |lines|
          ensures |lines[k]| <= 35
        {
          if k > 0 {
            assert lines[k] == lines[1..][k - 1];
          }
        }
      }
    }
  }

  lemma LongLinesFive(a: string, b: string, c: string, d: string, e: string, recordType: string)
    ensures V.LongLines([a, b, c, d, e], recordType) == [] <==> ShortLines(a, b, c, d, e)
  {
    hide V.LongLines;
    var lines := [a, b, c, d, e];
    LongLinesNone(lines, recordType);
    assert lines[0] == a && lines[1] == b && lines[2] == c && lines[3] == d && lines[4] == e;
  }

  lemma NoErrors(errors: Option<V.Errors>)
    ensures errors == Some([]) <==> errors.Some? && |errors.value| == 0
  {
  }

  lemma HeaderExactly(r: Record, n: nat)
    requires r.FileHeader?
    ensures V.HeaderErrors(Values(n, r)) == Some([]) <==>
            n == 1 && r.source != r.destination && V.ValidDataIdentifier(r.dataId) && (r.reset == "Y" || r.reset == "N")
  {
    DecimalRoundTrip(n);
    hide ParseInt, Decimal, V.ValidDataIdentifier;
    NoErrors(V.HeaderErrors(Values(n, r)));
  }

  lemma LicenceExactly(r: Record, n: nat, dataId: string, system: V.System)
    requires r.Licence?
    ensures V.LicenceErrors(dataId, Values(n, r), system) == Some([]) <==>
            && (dataId == "licenceData" ==> V.ValidAction(r.action))
            && V.ValidLicenceType(Shown(r.licenceType))
            && (system == V.Spire ==> r.usage == "E")
  {
    hide V.ValidAction, V.ValidLicenceType, Decimal, Shown;
    NoErrors(V.LicenceErrors(dataId, Values(n, r), system));
  }

  lemma TraderExactly(r: Record, n: nat, system: V.System, postcodeOk: string -> bool)
    requires r.Trader?
    ensures V.TraderErrors(Values(n, r), system, postcodeOk) == Some([]) <==>
            && Shown(r.rpaTraderId) != ""
            && (system == V.Spire ==> 12 <= |Shown(r.rpaTraderId)| <= 15)
            && DatesOk(r.traderStart, r.traderEnd)
            && |Shown(r.name)| <= 80
            && ShortLines(Shown(r.address1), Shown(r.address2), Shown(r.address3), Shown(r.address4), Shown(r.address5))
            && postcodeOk(Shown(r.postcode))
  {
    hide V.LongLines, V.DatesReversed, Decimal, Shown, ShortLines;
    var t := Values(n, r);
    assert t[7..12] == [Shown(r.address1), Shown(r.address2), Shown(r.address3), Shown(r.address4), Shown(r.address5)];
    LongLinesFive(Shown(r.address1), Shown(r.address2), Shown(r.address3), Shown(r.address4), Shown(r.address5), t[1]);
  }

  lemma ForeignTraderExactly(r: Record, n: nat)
    requires r.ForeignTrader?
    ensures V.ForeignTraderErrors(Values(n, r)) == [] <==>
            && |Shown(r.foreignName)| <= 80 && ShortLines(Shown(r.line1), r.line2, r.line3, r.line4, r.line5)
            && |r.foreignPostcode| <= 8 && |r.country| <= 2
  {
    hide V.LongLines, Decimal, Shown, ShortLines;
    var t := Values(n, r);
    assert t[3..8] == [Shown(r.line1), r.line2, r.line3, r.line4, r.line5];
    LongLinesFive(Shown(r.line1), r.line2, r.line3, r.line4, r.line5, t[1]);
  }

  lemma ProductExactly(r: Record, n: nat, system: V.System)
    requires r.DataLine?
    ensures V.ProductErrors(Values(n, r), system) == [] <==>
            r.controlledBy == "O"
            || (&& (Shown(r.description) != "" || (system == V.Icms && Shown(r.commodity) != ""))
                && V.ValidControl(r.controlledBy)
                && (system == V.Spire ==> |Shown(r.quantityUnit)| == 3))
  {
    hide Decimal, Shown, V.ValidControl;
  }

  lemma CountryExactly(r: Record, n: nat)
    requires r.Country?
    ensures V.CountryErrors(Values(n, r)) == [] <==>
            (Shown(r.code) == "" || Shown(r.group) == "") && V.ValidCountryUse(r.use)
  {
    hide Decimal, Shown, V.ValidCountryUse;
  }

  /** The validator finds nothing wrong with a printed record exactly when the record conforms. */
  lemma LineValidExactly(r: Record, n: nat, dataId: string, system: V.System, postcodeOk: string -> bool)
    ensures V.LineErrors(dataId, Values(n, r), system, postcodeOk) == Some([]) <==> Conforms(r, n, dataId, system, postcodeOk)
  {
    hide V.HeaderErrors, V.LicenceErrors, V.TraderErrors, V.ForeignTraderErrors, V.ProductErrors, V.CountryErrors,
         Shown, Decimal, DatesOk, ShortLines, V.ValidAction, V.ValidControl, V.ValidCountryUse, V.ValidDataIdentifier, V.ValidLicenceType;
    match r {
      case FileHeader(_, _, _, _, _, _) => HeaderExactly(r, n);
      case Licence(_, _, _, _, _, _, _) => LicenceExactly(r, n, dataId, system);
      case Trader(_, _, _, _, _, _, _, _, _, _) => TraderExactly(r, n, system, postcodeOk);
      case ForeignTrader(_, _, _, _, _, _, _, _) => ForeignTraderExactly(r, n);
      case DataLine(_, _, _, _, _, _) => ProductExactly(r, n, system);
      case Country(_, _, _) => CountryExactly(r, n);
      case _ =>
    }
  }

  /** Every record from the `n`-th on conforms, given the data identifier in force. */
  predicate AllConform(records: seq<Record>, n: nat, dataId: string, system: V.System, postcodeOk: string -> bool) {
    records == []
    || (&& Conforms(records[0], n, dataId, system, postcodeOk)
        && AllConform(records[1..], n + 1, if records[0].FileHeader? then records[0].dataId else dataId, system, postcodeOk))
  }

  lemma {:induction false} FileValidExactly(records: seq<Record>, n: nat, dataId: string, system: V.System, postcodeOk: string -> bool)
    requires AllClean(records)
    ensures V.FileErrors(LinesFrom(records, n) + [""], dataId, system, postcodeOk) == Some([]) <==>
            AllConform(records, n, dataId, system, postcodeOk)
  {
    hide V.LineErrors, V.FileErrors, V.NextDataId, V.After, Conforms, FormatLine, Split, Clean, Values;
    if records == [] {
      LastLineEmpty(dataId, system, postcodeOk);
    } else {
      var r := records[0];
      assert Clean(r);
      LineSplitsBack(n, r);
      LineValidExactly(r, n, dataId, system, postcodeOk);
      DataIdAfter(r, n, dataId);
      FileValidExactly(records[1..], n + 1, if r.FileHeader? then r.dataId else dataId, system, postcodeOk);
      FirstLine(FormatLine(n, r), LinesFrom(records[1..], n + 1), dataId, system, postcodeOk);
      var errors := V.LineErrors(dataId, Values(n, r), system, postcodeOk);
      if errors.Some? {
        NoErrorsAfter(errors.value, V.FileErrors(LinesFrom(records[1..], n + 1) + [""], V.NextDataId(dataId, Values(n, r)), system, postcodeOk));
      }
    }
  }

  lemma NoErrorsAfter(errors: V.Errors, rest: Option<V.Errors>)
    ensures V.After(errors, rest) == Some([]) <==> errors == [] && rest == Some([])
  {
    if rest.Some? {
      assert errors + rest.value == [] <==> errors == [] && rest.value == [];
    }
  }

  lemma LastLineEmpty(dataId: string, system: V.System, postcodeOk: string -> bool)
    ensures V.FileErrors([] + [""], dataId, system, postcodeOk) == Some([])
  {
    assert [] + [""] == [""] && [""][1..] == [];
  }

  lemma DataIdAfter(r: Record, n: nat, dataId: string)
    ensures V.NextDataId(dataId, Values(n, r)) == if r.FileHeader? then r.dataId else dataId
  {
  }

  lemma FirstLine(line: string, rest: seq<string>, dataId: string, system: V.System, postcodeOk: string -> bool)
    requires line != "" && |Split(line, FIELD_SEP)| >= 2
    ensures var t := Split(line, FIELD_SEP);
            V.FileErrors([line] + rest + [""], dataId, system, postcodeOk) ==
            match V.LineErrors(dataId, t, system, postcodeOk)
            case None => None
            case Some(errors) => V.After(errors, V.FileErrors(rest + [""], V.NextDataId(dataId, t), system, postcodeOk))
  {
    hide V.LineErrors, V.NextDataId;
    assert ([line] + rest + [""])[1..] == rest + [""];
  }

  // ---------------------------------------------------------------- clean payloads

  /** Text without field or line separators. */
  predicate Safe(s: string) {
    Free(s, FIELD_SEP) && Free(s, LINE_SEP)
  }

  predicate SafeOption(s: Option<string>) {
    Safe(Shown(s))
  }

  predicate SafeGood(g: Good) {
    SafeOption(g.name) && Safe(g.quantity.text)
  }

  predicate SafeData(d: LiteData) {
    && SafeOption(d.startDate) && SafeOption(d.endDate)
    && Safe(d.organisation.eori) && SafeOption(d.organisation.name) && SafeOption(d.organisation.address1)
    && Safe(d.organisation.address2) && Safe(d.organisation.address3) && Safe(d.organisation.address4)
    && Safe(d.organisation.address5) && SafeOption(d.organisation.postcode)
    && Safe(d.countryGroup) && (forall k :: 0 <= k < |d.countries| ==> Safe(d.countries[k]))
    && (d.endUser.Some? ==> SafeEndUser(d.endUser.value))
    && forall k :: 0 <= k < |d.goods| ==> SafeGood(d.goods[k])
  }

  predicate SafeEndUser(u: EndUser) {
    && SafeOption(u.name) && SafeOption(u.line1) && Safe(u.line2) && Safe(u.line3) && Safe(u.line4) && Safe(u.line5)
    && Safe(u.postcode) && Safe(u.country)
  }

  predicate SafeLite(p: LitePayload, history: seq<LitePayload>) {
    && Safe(p.reference) && Safe(p.oldReference) && SafeData(p.data)
    && var previous := PreviousPayload(history, p.oldReference);
       previous.Some? ==> SafeOption(previous.value.startDate) && SafeOption(previous.value.endDate)
  }

  lemma {:induction false} RemoveSafe(s: string, c: char)
    requires Safe(s)
    ensures Safe(Remove(s, c))
  {
    if s != "" {
      RemoveSafe(s[1..], c);
    }
  }

  lemma DateSafe(d: Option<string>)
    requires SafeOption(d) && Date(d).Some?
    ensures Safe(Date(d).value)
  {
    RemoveSafe(d.value, '-');
  }

  lemma {:induction false} AfterFirstSafe(s: string, c: char)
    requires Safe(s) && AfterFirst(s, c).Some?
    ensures Safe(AfterFirst(s, c).value)
  {
    if s[0] != c {
      AfterFirstSafe(s[1..], c);
    }
  }

  lemma {:induction false} FromFirstDigitSafe(s: string)
    requires Safe(s) && FromFirstDigit(s).Some?
    ensures Safe(FromFirstDigit(s).value)
  {
    if !IsDigit(s[0]) {
      FromFirstDigitSafe(s[1..]);
    }
  }

  lemma TransactionReferenceSafe(reference: string)
    requires Safe(reference) && TransactionReference(reference).Some?
    ensures Safe(TransactionReference(reference).value)
  {
    if |reference| >= 2 && reference[..2] == "GB" {
      AfterFirstSafe(reference, '/');
      RemoveSafe(AfterFirst(reference, '/').value, '/');
    } else {
      FromFirstDigitSafe(reference);
      RemoveSafe(FromFirstDigit(reference).value, '-');
    }
  }

  lemma {:induction false} FirstPartSafe(s: string, c: char)
    requires Safe(s)
    ensures Safe(Split(s, c)[0])
  {
    if s != "" && s[0] != c {
      FirstPartSafe(s[1..], c);
    }
  }

  lemma {:induction false} CountriesClean(countries: seq<string>)
    requires forall k :: 0 <= k < |countries| ==> Safe(countries[k])
    ensures AllClean(CountryRecords(countries))
  {
    if countries != [] {
      FirstPartSafe(countries[0], '-');
      CountriesClean(countries[1..]);
    }
  }

  lemma NumberSafe(n: nat)
    ensures Safe(Decimal(n)) && Safe(ThreeDigits(n))
    ensures n < 1000 ==> |ThreeDigits(n)| == 3
  {
    DecimalRoundTrip(n);
    if n >= 10 {
      DecimalRoundTrip(n / 10);
    }
  }

  lemma {:induction false} GoodsClean(goods: seq<Good>, line: nat)
    requires (forall k :: 0 <= k < |goods| ==> SafeGood(goods[k])) && GoodRecords(goods, line).Some?
    ensures AllClean(GoodRecords(goods, line).value)
  {
    if goods != [] {
      assert SafeGood(goods[0]);
      GoodClean(goods[0], line);
      GoodsClean(goods[1..], line + 1);
    }
  }

  lemma GoodClean(g: Good, line: nat)
    requires SafeGood(g) && GoodRecord(g, line).Some?
    ensures Clean(GoodRecord(g, line).value)
  {
    NumberSafe(UnitCode(g.unit).value);
    NumberSafe(line);
    NumberSafe(g.quantity.whole);
    hide Decimal, ThreeDigits, UnitCode;
    GoodLineClean(GoodRecord(g, line).value);
  }

  lemma GoodLineClean(r: Record)
    requires r.DataLine? && Safe(Decimal(r.lineNum)) && r.commodity == None && SafeOption(r.description)
    requires Safe(r.controlledBy) && SafeOption(r.quantityUnit) && SafeOption(r.quantity)
    ensures Clean(r)
  {
    hide Decimal;
  }

  lemma AllCleanAppend(a: seq<Record>, b: seq<Record>)
    requires AllClean(a) && AllClean(b)
    ensures AllClean(a + b)
  {
    hide Clean;
  }

  lemma TraderClean(d: LiteData)
    requires SafeData(d) && TraderRecord(d).Some?
    ensures Clean(TraderRecord(d).value)
  {
    DateSafe(d.startDate);
    DateSafe(d.endDate);
  }

  lemma EndUserClean(d: LiteData)
    requires SafeData(d)
    ensures AllClean(EndUserRecords(d.endUser))
  {
    if d.endUser.Some? {
      FirstPartSafe(d.endUser.value.country, '-');
    }
  }

  lemma DestinationsClean(d: LiteData)
    requires SafeData(d)
    ensures AllClean(Destinations(d))
  {
    CountriesClean(d.countries);
    if d.endUser.Some? {
      FirstPartSafe(d.endUser.value.country, '-');
    }
  }

  lemma SafeAppend(a: string, b: string)
    requires Safe(a) && Safe(b)
    ensures Safe(a + b)
  {
  }

  lemma ProvisosSafe()
    ensures Safe(PROVISOS_TEXT)
  {
    SafeAppend("apply please ", "see licence");
    SafeAppend("Provisos may ", "apply please " + "see licence");
  }

  lemma OpenGoodsWords()
    ensures Safe("Open Licence ") && Safe("goods - see ") && Safe("actual licence ") && Safe("for information")
  {
  }

  lemma OpenGoodsSafe()
    ensures Safe(OPEN_GOODS_TEXT)
  {
    OpenGoodsWords();
    hide Safe;
    SafeAppend("actual licence ", "for information");
    SafeAppend("goods - see ", "actual licence " + "for information");
    SafeAppend("Open Licence ", "goods - see " + ("actual licence " + "for information"));
  }

  lemma FixedRecordsClean()
    ensures Clean(PROVISOS) && Clean(OPEN_GOODS) && Clean(End(LICENCE, None))
  {
    NumberSafe(1);
    ProvisosSafe();
    OpenGoodsSafe();
    RestrictionsClean(PROVISOS_TEXT);
    OpenGoodsClean(OPEN_GOODS_TEXT);
  }

  lemma RestrictionsClean(text: string)
    requires Safe(text)
    ensures Clean(Restrictions(text))
  {
  }

  lemma OpenGoodsClean(text: string)
    requires Safe(text) && Safe(Decimal(1))
    ensures Clean(DataLine(1, None, Some(text), "O", None, None))
  {
    hide Decimal;
    GoodLineClean(DataLine(1, None, Some(text), "O", None, None));
  }

  lemma DetailsClean(d: LiteData)
    requires SafeData(d) && Details(d).Some?
    ensures AllClean(Details(d).value)
  {
    TraderClean(d);
    DestinationsClean(d);
    EndUserClean(d);
    FixedRecordsClean();
    if IsStandard(d.licenceType) {
      GoodsClean(d.goods, 1);
    }
    hide Clean, TraderRecord, Destinations, EndUserRecords, SafeData;
    var trader := [TraderRecord(d).value];
    AllCleanAppend(trader, Destinations(d));
    AllCleanAppend(trader + Destinations(d), EndUserRecords(d.endUser));
    AllCleanAppend(trader + Destinations(d) + EndUserRecords(d.endUser), [PROVISOS]);
    AllCleanAppend(trader + Destinations(d) + EndUserRecords(d.endUser) + [PROVISOS], GoodsOf(d).value);
  }

  lemma HeaderClean(transaction: Option<string>, action: string, reference: string, licenceType: string,
                    start: Option<string>, end: Option<string>)
    requires var r := LicenceRecord(transaction, action, reference, ChiefType(licenceType), "E", start, end);
             r.Some? && Safe(transaction.value) && Safe(action) && Safe(reference) && Safe(start.value) && Safe(end.value)
    ensures Clean(LicenceRecord(transaction, action, reference, ChiefType(licenceType), "E", start, end).value)
  {
  }

  lemma LiteBlockClean(action: Action, reference: string, d: LiteData)
    requires Safe(reference) && SafeData(d) && LiteBlock(action, reference, d).Some?
    ensures AllClean(LiteBlock(action, reference, d).value)
  {
    LiteHeaderClean(action, reference, d);
    FixedRecordsClean();
    if action != Cancel {
      DetailsClean(d);
    }
    hide *;
    var header := LicenceRecord(TransactionReference(reference), ActionText(action), reference, ChiefType(d.licenceType), "E",
                                Date(d.startDate), Date(d.endDate));
    var details := if action == Cancel then Some([]) else Details(d);
    LiteBlockIs(action, reference, d);
    NothingClean();
    BlockClean(header, details);
  }

  lemma LiteBlockIs(action: Action, reference: string, d: LiteData)
    ensures LiteBlock(action, reference, d) ==
            Block(LicenceRecord(TransactionReference(reference), ActionText(action), reference, ChiefType(d.licenceType), "E",
                                Date(d.startDate), Date(d.endDate)),
                  if action == Cancel then Some([]) else Details(d))
    ensures LiteBlock(action, reference, d).Some? && action != Cancel ==> Details(d).Some?
  {
    hide TransactionReference, Date, Details, ActionText, ChiefType, LicenceRecord;
  }

  lemma NothingClean()
    ensures AllClean([])
  {
  }

  lemma BlockClean(header: Option<Record>, details: Option<seq<Record>>)
    requires Block(header, details).Some?
    requires Clean(header.value) && AllClean(details.value) && Clean(End(LICENCE, None))
    ensures AllClean(Block(header, details).value)
  {
    hide Clean;
  }

  lemma LiteHeaderClean(action: Action, reference: string, d: LiteData)
    requires Safe(reference) && SafeData(d) && LiteBlock(action, reference, d).Some?
    ensures var header := LicenceRecord(TransactionReference(reference), ActionText(action), reference, ChiefType(d.licenceType), "E",
                                        Date(d.startDate), Date(d.endDate));
            header.Some? && Clean(header.value)
  {
    TransactionReferenceSafe(reference);
    DateSafe(d.startDate);
    DateSafe(d.endDate);
    ActionSafe(action);
    hide Details, Date, TransactionReference, Clean, ActionText, Safe;
    HeaderClean(TransactionReference(reference), ActionText(action), reference, d.licenceType, Date(d.startDate), Date(d.endDate));
  }

  lemma ActionSafe(action: Action)
    ensures Safe(ActionText(action))
  {
  }

  /** The records of a payload without separators in its texts are printable without ambiguity. */
  lemma LiteClean(p: LitePayload, history: seq<LitePayload>)
    requires SafeLite(p, history) && GenerateLinesForLicence(p, history).Some?
    ensures AllClean(GenerateLinesForLicence(p, history).value)
  {
    assert p.action == Update ==> CancelOldBlock(p, history).Some?;
    hide LiteBlock, AllClean, SafeData, CancelOldBlock;
    LiteBlockClean(if p.action == Update then Insert else p.action, p.reference, p.data);
    if p.action == Update {
      UpdateCancelClean(p, history);
      AllCleanAppend(CancelOldBlock(p, history).value, LiteBlock(Insert, p.reference, p.data).value);
    }
  }

  lemma UpdateCancelClean(p: LitePayload, history: seq<LitePayload>)
    requires p.action == Update && SafeLite(p, history) && CancelOldBlock(p, history).Some?
    ensures AllClean(CancelOldBlock(p, history).value)
  {
    var previous := PreviousPayload(history, p.oldReference).value;
    TransactionReferenceSafe(p.oldReference);
    DateSafe(previous.startDate);
    DateSafe(previous.endDate);
    HeaderClean(TransactionReference(p.oldReference), "cancel", p.oldReference, p.data.licenceType,
                Date(previous.startDate), Date(previous.endDate));
    FixedRecordsClean();
    CancelClean(p, history);
  }

  lemma CancelClean(p: LitePayload, history: seq<LitePayload>)
    requires CancelOldBlock(p, history).Some?
    requires Clean(CancelOldBlock(p, history).value[0]) && Clean(End(LICENCE, None))
    ensures AllClean(CancelOldBlock(p, history).value)
  {
    hide Clean;
  }
}
