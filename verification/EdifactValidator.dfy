/**
 The check a generated licence file must pass (mail/libraries/edifact_validator.py).

 The postcode regular expression is the parameter `postcodeOk`.
 */
module EdifactValidator {
  import opened Text

  /** CHIEF_SOURCE_SYSTEM. */
  datatype System = Spire | Icms

  datatype Problem =
    | MissingValues | NotFirstLine | WrongTag | SameSystems | BadDataIdentifier | BadResetIndicator
    | BadAction | BadLicenceType | NotExport | NoTraderId | BadTraderIdLength | BadDates | NameTooLong | AddressTooLong
    | BadPostcode | CodeAndGroup | BadCountryUse | PostcodeTooLong | CountryTooLong
    | NoDescription | BadControlledBy | BadQuantityUnit | BadRecordType

  datatype Error = Error(recordType: string, problem: Problem)

  type Errors = seq<Error>

  /** What a check appends to the errors. */
  function Check(bad: bool, recordType: string, problem: Problem): Errors {
    if bad then [Error(recordType, problem)] else []
  }

  predicate ValidAction(action: string) {
    action == "insert" || action == "cancel" || action == "update" || action == "replace"
  }

  predicate ValidLicenceType(t: string) {
    t == "SIE" || t == "OIE" || t == "OGE" || t == "SIL" || t == "OIL" || t == "SAN"
  }

  predicate ValidCountryUse(use: string) {
    use == "D" || use == "E" || use == "O" || use == "P" || use == "R" || use == "S"
  }

  predicate ValidDataIdentifier(id: string) {
    id == "licenceData" || id == "licenceReply" || id == "usageData" || id == "usageReply"
  }

  predicate ValidControl(c: string) {
    c == "B" || c == "O" || c == "Q" || c == "V"
  }

  // Each of the following is one `validate_*` function on the fields of a line; `None` is an exception.

  function HeaderErrors(t: seq<string>): Option<Errors>
    requires |t| >= 2
  {
    if |t| != 8 then Some([Error(t[1], MissingValues)])
    else
      match ParseInt(t[0])
      case None => None
      case Some(n) =>
        Some(Check(n != 1, t[1], NotFirstLine) + Check(t[1] != "fileHeader", t[1], WrongTag)
             + Check(t[2] == t[3], t[1], SameSystems) + Check(!ValidDataIdentifier(t[4]), t[1], BadDataIdentifier)
             + Check(t[7] != "Y" && t[7] != "N", t[1], BadResetIndicator))
  }

  function LicenceErrors(dataId: string, t: seq<string>, system: System): Option<Errors>
    requires |t| >= 2
  {
    if |t| < 4 then None
    else if |t| != 9 then Some([Error(t[1], MissingValues)])
    else Some(Check(t[1] != "licence", t[1], WrongTag)
              + Check(dataId == "licenceData" && !ValidAction(t[3]), t[1], BadAction)
              + Check(!ValidLicenceType(t[5]), t[1], BadLicenceType)
              + Check(system == Spire && t[6] != "E", t[1], NotExport))
  }

  /** `int(end) < int(start)` when both are given; `None` is `ValueError`. */
  function DatesReversed(start: string, end: string): Option<bool> {
    if start == "" || end == "" then Some(false)
    else
      match (ParseInt(end), ParseInt(start))
      case (Some(e), Some(s)) => Some(e < s)
      case _ => None
  }

  function LongLines(lines: seq<string>, recordType: string): Errors {
    if lines == [] then [] else Check(|lines[0]| > 35, recordType, AddressTooLong) + LongLines(lines[1..], recordType)
  }

  function TraderErrors(t: seq<string>, system: System, postcodeOk: string -> bool): Option<Errors>
    requires |t| >= 2
  {
    if |t| != 13 then Some([Error(t[1], MissingValues)])
    else
      match DatesReversed(t[4], t[5])
      case None => None
      case Some(reversed) =>
        Some(Check(t[1] != "trader", t[1], WrongTag)
             + Check(t[2] == "" && t[3] == "", t[1], NoTraderId)
             + Check(system == Spire && (|t[3]| < 12 || |t[3]| > 15), t[1], BadTraderIdLength)
             + Check(reversed, t[1], BadDates)
             + Check(|t[6]| > 80, t[1], NameTooLong)
             + LongLines(t[7..12], t[1])
             + Check(!postcodeOk(t[12]), t[1], BadPostcode))
  }

  function CountryErrors(t: seq<string>): Errors
    requires |t| >= 2
  {
    if |t| != 5 then [Error(t[1], MissingValues)]
    else Check(t[1] != "country", t[1], WrongTag) + Check(t[2] != "" && t[3] != "", t[1], CodeAndGroup)
         + Check(!ValidCountryUse(t[4]), t[1], BadCountryUse)
  }

  function ForeignTraderErrors(t: seq<string>): Errors
    requires |t| >= 2
  {
    if |t| != 10 then [Error(t[1], MissingValues)]
    else Check(t[1] != "foreignTrader", t[1], WrongTag) + Check(|t[2]| > 80, t[1], NameTooLong) + LongLines(t[3..8], t[1])
         + Check(|t[8]| > 8, t[1], PostcodeTooLong) + Check(|t[9]| > 2, t[1], CountryTooLong)
  }

  function RestrictionsErrors(t: seq<string>): Errors
    requires |t| >= 2
  {
    if |t| != 3 then [Error(t[1], MissingValues)] else Check(t[1] != "restrictions", t[1], WrongTag)
  }

  function ProductErrors(t: seq<string>, system: System): Errors
    requires |t| >= 2
  {
    if |t| != 19 then [Error(t[1], MissingValues)]
    else
      Check(t[1] != "line", t[1], WrongTag)
      + if t[8] == "O" then []
        else Check(if system == Spire then t[7] == "" else t[7] == "" && t[3] == "", t[1], NoDescription)
             + Check(!ValidControl(t[8]), t[1], BadControlledBy)
             + Check(system == Spire && |t[10]| != 3, t[1], BadQuantityUnit)
  }

  function EndErrors(t: seq<string>): Errors
    requires |t| >= 2
  {
    if |t| != 4 then [Error(t[1], MissingValues)] else Check(t[1] != "end", t[1], WrongTag)
  }

  function TrailerErrors(t: seq<string>): Errors
    requires |t| >= 2
  {
    if |t| != 3 then [Error(t[1], MissingValues)] else Check(t[1] != "fileTrailer", t[1], WrongTag)
  }

  /** The errors kept for one line: those of a `restrictions` record are computed and thrown away. */
  function LineErrors(dataId: string, t: seq<string>, system: System, postcodeOk: string -> bool): Option<Errors>
    requires |t| >= 2
  {
    if t[1] == "fileHeader" then if |t| < 5 then None else HeaderErrors(t)
    else if t[1] == "licence" then LicenceErrors(dataId, t, system)
    else if t[1] == "trader" then TraderErrors(t, system, postcodeOk)
    else if t[1] == "country" then Some(CountryErrors(t))
    else if t[1] == "foreignTrader" then Some(ForeignTraderErrors(t))
    else if t[1] == "restrictions" then Some([])
    else if t[1] == "line" then Some(ProductErrors(t, system))
    else if t[1] == "end" then Some(EndErrors(t))
    else if t[1] == "fileTrailer" then Some(TrailerErrors(t))
    else Some([Error(t[1], BadRecordType)])
  }

  /** The data identifier in force after a line. */
  function NextDataId(dataId: string, t: seq<string>): string
    requires |t| >= 2
  {
    if t[1] == "fileHeader" && |t| >= 5 then t[4] else dataId
  }

  /** The errors of the non-empty lines, in order; `None` is an exception. */
  function FileErrors(lines: seq<string>, dataId: string, system: System, postcodeOk: string -> bool): Option<Errors> {
    if lines == [] then Some([])
    else if lines[0] == "" then FileErrors(lines[1..], dataId, system, postcodeOk)
    else
      var t := Split(lines[0], FIELD_SEP);
      if |t| < 2 then None
      else
        match LineErrors(dataId, t, system, postcodeOk)
        case None => None
        case Some(errors) => After(errors, FileErrors(lines[1..], NextDataId(dataId, t), system, postcodeOk))
  }

  function After(errors: Errors, rest: Option<Errors>): Option<Errors> {
    match rest
    case None => None
    case Some(more) => Some(errors + more)
  }

  /** `validate_permitted_trader`. */
  method ValidatePermittedTrader(record: string, system: System, postcodeOk: string -> bool) returns (r: Option<Errors>)
    requires |Split(record, FIELD_SEP)| >= 2
    ensures r == TraderErrors(Split(record, FIELD_SEP), system, postcodeOk)
  {
    var t := Split(record, FIELD_SEP);
    if |t| != 13 {
      return Some([Error(t[1], MissingValues)]);
    }
    var errors := Check(t[1] != "trader", t[1], WrongTag);
    errors := errors + Check(t[2] == "" && t[3] == "", t[1], NoTraderId);
    errors := errors + Check(system == Spire && (|t[3]| < 12 || |t[3]| > 15), t[1], BadTraderIdLength);
    var reversed := DatesReversed(t[4], t[5]);
    if reversed.None? {
      return None;
    }
    errors := errors + Check(reversed.value, t[1], BadDates);
    errors := errors + Check(|t[6]| > 80, t[1], NameTooLong);
    errors := AppendLongLines(errors, t[7..12], t[1]);
    errors := errors + Check(!postcodeOk(t[12]), t[1], BadPostcode);
    return Some(errors);
  }

  /** `validate_file_header`. */
  method ValidateFileHeader(record: string) returns (r: Option<Errors>)
    requires |Split(record, FIELD_SEP)| >= 2
    ensures r == HeaderErrors(Split(record, FIELD_SEP))
  {
    hide Check, ValidDataIdentifier, ValidAction, ValidLicenceType, ValidCountryUse, ValidControl, Split, LongLines;
    var t := Split(record, FIELD_SEP);
    var errors: Errors := [];
    if |t| != 8 {
      errors := errors + [Error(t[1], MissingValues)];
      assert errors == [Error(t[1], MissingValues)];
      return Some(errors);
    }
    var number := ParseInt(t[0]);
    if number.None? {
      return None;
    }
    errors := errors + Check(number.value != 1, t[1], NotFirstLine);
    errors := errors + Check(t[1] != "fileHeader", t[1], WrongTag);
    errors := errors + Check(t[2] == t[3], t[1], SameSystems);
    errors := errors + Check(!ValidDataIdentifier(t[4]), t[1], BadDataIdentifier);
    errors := errors + Check(t[7] != "Y" && t[7] != "N", t[1], BadResetIndicator);
    assert errors == HeaderErrors(t).value;
    return Some(errors);
  }

  /** `validate_licence_transaction_header`. */
  method ValidateLicenceTransactionHeader(dataId: string, record: string, system: System) returns (r: Option<Errors>)
    requires |Split(record, FIELD_SEP)| >= 2
    ensures r == LicenceErrors(dataId, Split(record, FIELD_SEP), system)
  {
    hide Check, ValidDataIdentifier, ValidAction, ValidLicenceType, ValidCountryUse, ValidControl, Split, LongLines;
    var t := Split(record, FIELD_SEP);
    var errors: Errors := [];
    if |t| < 4 {
      return None;
    }
    var action := t[3];
    if |t| != 9 {
      errors := errors + [Error(t[1], MissingValues)];
      assert errors == [Error(t[1], MissingValues)];
      return Some(errors);
    }
    errors := errors + Check(t[1] != "licence", t[1], WrongTag);
    errors := errors + Check(dataId == "licenceData" && !ValidAction(action), t[1], BadAction);
    errors := errors + Check(!ValidLicenceType(t[5]), t[1], BadLicenceType);
    errors := errors + Check(system == Spire && t[6] != "E", t[1], NotExport);
    assert errors == LicenceErrors(dataId, t, system).value;
    return Some(errors);
  }

  /** `validate_country`. */
  method ValidateCountry(record: string) returns (errors: Errors)
    requires |Split(record, FIELD_SEP)| >= 2
    ensures errors == CountryErrors(Split(record, FIELD_SEP))
  {
    hide Check, ValidDataIdentifier, ValidAction, ValidLicenceType, ValidCountryUse, ValidControl, Split, LongLines;
    var t := Split(record, FIELD_SEP);
    errors := [];
    if |t| != 5 {
      return errors + [Error(t[1], MissingValues)];
    }
    errors := errors + Check(t[1] != "country", t[1], WrongTag);
    errors := errors + Check(t[2] != "" && t[3] != "", t[1], CodeAndGroup);
    errors := errors + Check(!ValidCountryUse(t[4]), t[1], BadCountryUse);
  }

  /** `validate_foreign_trader`. */
  method ValidateForeignTrader(record: string) returns (errors: Errors)
    requires |Split(record, FIELD_SEP)| >= 2
    ensures errors == ForeignTraderErrors(Split(record, FIELD_SEP))
  {
    hide Check, ValidDataIdentifier, ValidAction, ValidLicenceType, ValidCountryUse, ValidControl, Split, LongLines;
    var t := Split(record, FIELD_SEP);
    errors := [];
    if |t| != 10 {
      return errors + [Error(t[1], MissingValues)];
    }
    errors := errors + Check(t[1] != "foreignTrader", t[1], WrongTag);
    errors := errors + Check(|t[2]| > 80, t[1], NameTooLong);
    errors := AppendLongLines(errors, t[3..8], t[1]);
    errors := errors + Check(|t[8]| > 8, t[1], PostcodeTooLong);
    errors := errors + Check(|t[9]| > 2, t[1], CountryTooLong);
  }

  /** The loop over address lines. */
  method AppendLongLines(before: Errors, lines: seq<string>, recordType: string) returns (errors: Errors)
    ensures errors == before + LongLines(lines, recordType)
  {
    errors := before;
    assert lines[..0] == [] && before + LongLines([], recordType) == before;
    for k := 0 to |lines|
      invariant errors == before + LongLines(lines[..k], recordType)
    {
      LongLinesPush(lines[..k], lines[k], recordType);
      assert lines[..k + 1] == lines[..k] + [lines[k]];
      Assoc(before, LongLines(lines[..k], recordType), Check(|lines[k]| > 35, recordType, AddressTooLong));
      errors := errors + Check(|lines[k]| > 35, recordType, AddressTooLong);
    }
    assert lines[..|lines|] == lines;
  }

  /** `validate_restrictions`. */
  method ValidateRestrictions(record: string) returns (errors: Errors)
    requires |Split(record, FIELD_SEP)| >= 2
    ensures errors == RestrictionsErrors(Split(record, FIELD_SEP))
  {
    hide Check, ValidDataIdentifier, ValidAction, ValidLicenceType, ValidCountryUse, ValidControl, Split, LongLines;
    var t := Split(record, FIELD_SEP);
    errors := [];
    if |t| != 3 {
      return errors + [Error(t[1], MissingValues)];
    }
    errors := errors + Check(t[1] != "restrictions", t[1], WrongTag);
  }

  /** `validate_licence_product_line`. */
  method ValidateLicenceProductLine(record: string, system: System) returns (errors: Errors)
    requires |Split(record, FIELD_SEP)| >= 2
    ensures errors == ProductErrors(Split(record, FIELD_SEP), system)
  {
    hide Check, ValidDataIdentifier, ValidAction, ValidLicenceType, ValidCountryUse, ValidControl, Split, LongLines;
    var t := Split(record, FIELD_SEP);
    errors := [];
    if |t| != 19 {
      return errors + [Error(t[1], MissingValues)];
    }
    errors := errors + Check(t[1] != "line", t[1], WrongTag);
    if t[8] == "O" {
      return;
    }
    errors := errors + Check(if system == Spire then t[7] == "" else t[7] == "" && t[3] == "", t[1], NoDescription);
    errors := errors + Check(!ValidControl(t[8]), t[1], BadControlledBy);
    errors := errors + Check(system == Spire && |t[10]| != 3, t[1], BadQuantityUnit);
  }

  /** `validate_end_line`. */
  method ValidateEndLine(record: string) returns (errors: Errors)
    requires |Split(record, FIELD_SEP)| >= 2
    ensures errors == EndErrors(Split(record, FIELD_SEP))
  {
    hide Check, ValidDataIdentifier, ValidAction, ValidLicenceType, ValidCountryUse, ValidControl, Split, LongLines;
    var t := Split(record, FIELD_SEP);
    errors := [];
    if |t| != 4 {
      return errors + [Error(t[1], MissingValues)];
    }
    errors := errors + Check(t[1] != "end", t[1], WrongTag);
  }

  /** `validate_file_trailer`. */
  method ValidateFileTrailer(record: string) returns (errors: Errors)
    requires |Split(record, FIELD_SEP)| >= 2
    ensures errors == TrailerErrors(Split(record, FIELD_SEP))
  {
    hide Check, ValidDataIdentifier, ValidAction, ValidLicenceType, ValidCountryUse, ValidControl, Split, LongLines;
    var t := Split(record, FIELD_SEP);
    errors := [];
    if |t| != 3 {
      return errors + [Error(t[1], MissingValues)];
    }
    errors := errors + Check(t[1] != "fileTrailer", t[1], WrongTag);
  }

  /**
   The branch of `validate_edifact_file` on the record type. The result of the restrictions
   validator goes into the variable that held the line, not into the errors.
   */
  method ValidateLine(record: string, dataId: string, system: System, postcodeOk: string -> bool) returns (r: Option<Errors>)
    requires |Split(record, FIELD_SEP)| >= 2
    ensures r == LineErrors(dataId, Split(record, FIELD_SEP), system, postcodeOk)
  {
    hide HeaderErrors, LicenceErrors, TraderErrors, CountryErrors, ForeignTraderErrors, RestrictionsErrors, ProductErrors,
         EndErrors, TrailerErrors;
    var t := Split(record, FIELD_SEP);
    var errors: Errors := [];
    if t[1] == "fileHeader" {
      if |t| < 5 {
        return None;
      }
      r := ValidateFileHeader(record);
      return;
    } else if t[1] == "licence" {
      r := ValidateLicenceTransactionHeader(dataId, record, system);
      return;
    } else if t[1] == "trader" {
      r := ValidatePermittedTrader(record, system, postcodeOk);
      return;
    } else if t[1] == "country" {
      errors := ValidateCountry(record);
    } else if t[1] == "foreignTrader" {
      errors := ValidateForeignTrader(record);
    } else if t[1] == "restrictions" {
      var line := ValidateRestrictions(record);
    } else if t[1] == "line" {
      errors := ValidateLicenceProductLine(record, system);
    } else if t[1] == "end" {
      errors := ValidateEndLine(record);
    } else if t[1] == "fileTrailer" {
      errors := ValidateFileTrailer(record);
    } else {
      errors := errors + [Error(t[1], BadRecordType)];
      assert errors == [Error(t[1], BadRecordType)];
    }
    return Some(errors);
  }

  /**
   A `restrictions` line never adds an error to a file, wherever it stands: not even when it has
   errors of its own, as one without a text has.
   */
  lemma {:induction false} RestrictionsErrorsAreLost(before: seq<string>, line: string, after: seq<string>, dataId: string,
                                                     system: System, postcodeOk: string -> bool)
    requires line != "" && |Split(line, FIELD_SEP)| >= 2 && Split(line, FIELD_SEP)[1] == "restrictions"
    ensures FileErrors(before + ([line] + after), dataId, system, postcodeOk)
            == FileErrors(before + after, dataId, system, postcodeOk)
    decreases |before|
  {
    hide LineErrors;
    if before == [] {
      assert before + ([line] + after) == [line] + after && before + after == after;
      assert ([line] + after)[1..] == after;
      OneRestrictions(Split(line, FIELD_SEP), dataId, system, postcodeOk);
      NothingFirst(FileErrors(after, dataId, system, postcodeOk));
    } else {
      assert (before + ([line] + after))[1..] == before[1..] + ([line] + after);
      assert (before + after)[1..] == before[1..] + after;
      var t := Split(before[0], FIELD_SEP);
      var next := if before[0] == "" || |t| < 2 then dataId else NextDataId(dataId, t);
      RestrictionsErrorsAreLost(before[1..], line, after, next, system, postcodeOk);
    }
  }

  lemma OneRestrictions(t: seq<string>, dataId: string, system: System, postcodeOk: string -> bool)
    requires |t| >= 2 && t[1] == "restrictions"
    ensures LineErrors(dataId, t, system, postcodeOk) == Some([]) && NextDataId(dataId, t) == dataId
    ensures RestrictionsErrors(t) != [] <==> |t| != 3
  {
  }

  lemma NothingFirst(rest: Option<Errors>)
    ensures After([], rest) == rest
  {
    if rest.Some? {
      assert [] + rest.value == rest.value;
    }
  }

  lemma {:induction false} LongLinesPush(lines: seq<string>, line: string, recordType: string)
    ensures LongLines(lines + [line], recordType) == LongLines(lines, recordType) + Check(|line| > 35, recordType, AddressTooLong)
  {
    if lines == [] {
      assert (lines + [line])[1..] == [];
    } else {
      assert (lines + [line])[1..] == lines[1..] + [line];
      LongLinesPush(lines[1..], line, recordType);
      Assoc(Check(|lines[0]| > 35, recordType, AddressTooLong), LongLines(lines[1..], recordType), Check(|line| > 35, recordType, AddressTooLong));
    }
  }

  /** `validate_edifact_file`. */
  method ValidateEdifactFile(data: string, system: System, postcodeOk: string -> bool) returns (r: Option<Errors>)
    ensures r == FileErrors(Split(data, LINE_SEP), "", system, postcodeOk)
  {
    var lines := Split(data, LINE_SEP);
    var errors: Errors := [];
    var dataId := "";
    ghost var whole := FileErrors(lines, "", system, postcodeOk);
    assert lines[0..] == lines;
    assert whole.Some? ==> [] + whole.value == whole.value;
    for i := 0 to |lines|
      invariant After(errors, FileErrors(lines[i..], dataId, system, postcodeOk)) == whole
    {
      assert lines[i..][0] == lines[i] && lines[i..][1..] == lines[i + 1..];
      if lines[i] != "" {
        hide LineErrors;
        var t := Split(lines[i], FIELD_SEP);
        if |t| < 2 {
          return None;
        }
        var found := ValidateLine(lines[i], dataId, system, postcodeOk);
        if found.None? {
          return None;
        }
        dataId := NextDataId(dataId, t);
        AfterAfter(errors, found.value, FileErrors(lines[i + 1..], dataId, system, postcodeOk));
        errors := errors + found.value;
      }
    }
    assert errors + [] == errors;
    return Some(errors);
  }

  lemma AfterAfter(a: Errors, b: Errors, rest: Option<Errors>)
    ensures After(a, After(b, rest)) == After(a + b, rest)
  {
    if rest.Some? {
      Assoc(a, b, rest.value);
    }
  }
}
