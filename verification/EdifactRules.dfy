/**
 What the validator reports, for every line and every text, in terms of the line's columns.
 */
module EdifactRules {
  import opened Text
  import V = EdifactValidator

  predicate TooLong(t: seq<string>, first: nat, last: nat)
    requires last <= |t|
  {
    exists k :: first <= k < last && |t[k]| > 35
  }

  // What a line of each type breaks, its number of columns being that of DES236.

  predicate HeaderBreaks(p: V.Problem, t: seq<string>) {
    if |t| != 8 then p == V.MissingValues
    else
      match p
      case NotFirstLine => ParseInt(t[0]) != Some(1)
      case SameSystems => t[2] == t[3]
      case BadDataIdentifier => t[4] !in {"licenceData", "licenceReply", "usageData", "usageReply"}
      case BadResetIndicator => t[7] !in {"Y", "N"}
      case _ => false
  }

  predicate LicenceBreaks(p: V.Problem, dataId: string, t: seq<string>, system: V.System) {
    if |t| != 9 then p == V.MissingValues
    else
      match p
      case BadAction => dataId == "licenceData" && t[3] !in {"insert", "cancel", "update", "replace"}
      case BadLicenceType => t[5] !in {"SIE", "OIE", "OGE", "SIL", "OIL", "SAN"}
      case NotExport => system == V.Spire && t[6] != "E"
      case _ => false
  }

  predicate TraderBreaks(p: V.Problem, t: seq<string>, system: V.System, postcodeOk: string -> bool) {
    if |t| != 13 then p == V.MissingValues
    else
      match p
      case NoTraderId => t[2] == "" && t[3] == ""
      case BadTraderIdLength => system == V.Spire && !(12 <= |t[3]| <= 15)
      case BadDates =>
        t[4] != "" && t[5] != ""
        && ParseInt(t[4]).Some? && ParseInt(t[5]).Some? && ParseInt(t[5]).value < ParseInt(t[4]).value
      case NameTooLong => |t[6]| > 80
      case AddressTooLong => TooLong(t, 7, 12)
      case BadPostcode => !postcodeOk(t[12])
      case _ => false
  }

  predicate CountryBreaks(p: V.Problem, t: seq<string>) {
    if |t| != 5 then p == V.MissingValues
    else
      match p
      case CodeAndGroup => t[2] != "" && t[3] != ""
      case BadCountryUse => t[4] !in {"D", "E", "O", "P", "R", "S"}
      case _ => false
  }

  predicate ForeignTraderBreaks(p: V.Problem, t: seq<string>) {
    if |t| != 10 then p == V.MissingValues
    else
      match p
      case NameTooLong => |t[2]| > 80
      case AddressTooLong => TooLong(t, 3, 8)
      case PostcodeTooLong => |t[8]| > 8
      case CountryTooLong => |t[9]| > 2
      case _ => false
  }

  /** Goods that are not controlled are not looked at. */
  predicate GoodsBreak(p: V.Problem, t: seq<string>, system: V.System) {
    if |t| != 19 then p == V.MissingValues
    else
      match p
      case NoDescription => t[8] != "O" && t[7] == "" && (system == V.Spire || t[3] == "")
      case BadControlledBy => t[8] !in {"B", "O", "Q", "V"}
      case BadQuantityUnit => t[8] != "O" && system == V.Spire && |t[10]| != 3
      case _ => false
  }

  /** The line breaks the rule; a `restrictions` line breaks none. */
  predicate Breaks(p: V.Problem, dataId: string, t: seq<string>, system: V.System, postcodeOk: string -> bool)
    requires |t| >= 2
  {
    match t[1]
    case "fileHeader" => HeaderBreaks(p, t)
    case "licence" => LicenceBreaks(p, dataId, t, system)
    case "trader" => TraderBreaks(p, t, system, postcodeOk)
    case "country" => CountryBreaks(p, t)
    case "foreignTrader" => ForeignTraderBreaks(p, t)
    case "restrictions" => false
    case "line" => GoodsBreak(p, t, system)
    case "end" => p == V.MissingValues && |t| != 4
    case "fileTrailer" => p == V.MissingValues && |t| != 3
    case _ => p == V.BadRecordType
  }

  /** `None`: the line number of a header, a licence line's action, or a date cannot be read. */
  predicate Unreadable(t: seq<string>)
    requires |t| >= 2
  {
    || (t[1] == "fileHeader" && (|t| < 5 || (|t| == 8 && ParseInt(t[0]).None?)))
    || (t[1] == "licence" && |t| < 4)
    || (t[1] == "trader" && |t| == 13 && t[4] != "" && t[5] != "" && (ParseInt(t[4]).None? || ParseInt(t[5]).None?))
  }

  lemma {:induction false} LongLinesHave(lines: seq<string>, recordType: string, e: V.Error)
    ensures e in V.LongLines(lines, recordType) <==>
            e == V.Error(recordType, V.AddressTooLong) && exists k :: 0 <= k < |lines| && |lines[k]| > 35
  {
    if lines != [] {
      LongLinesHave(lines[1..], recordType, e);
      assert forall k :: 0 < k < |lines| ==> lines[k] == lines[1..][k - 1];
      if |lines[0]| <= 35 && exists k :: 0 <= k < |lines| && |lines[k]| > 35 {
        var k :| 0 <= k < |lines| && |lines[k]| > 35;
        assert |lines[1..][k - 1]| > 35;
      }
      if k :| 0 <= k < |lines[1..]| && |lines[1..][k]| > 35 {
        assert |lines[k + 1]| > 35;
      }
    }
  }

  lemma LongLinesAre(t: seq<string>, first: nat, last: nat, recordType: string, e: V.Error)
    requires first <= last <= |t|
    ensures e in V.LongLines(t[first..last], recordType) <==> e == V.Error(recordType, V.AddressTooLong) && TooLong(t, first, last)
  {
    LongLinesHave(t[first..last], recordType, e);
    var lines := t[first..last];
    hide V.LongLines;
    if TooLong(t, first, last) {
      var k :| first <= k < last && |t[k]| > 35;
      assert lines[k - first] == t[k];
    }
    if k :| 0 <= k < |lines| && |lines[k]| > 35 {
      assert t[first + k] == lines[k];
    }
  }

  lemma CheckHas(bad: bool, recordType: string, problem: V.Problem, e: V.Error)
    ensures e in V.Check(bad, recordType, problem) <==> bad && e == V.Error(recordType, problem)
  {
  }

  lemma InTwo(e: V.Error, a: V.Errors, b: V.Errors)
    ensures e in a + b <==> e in a || e in b
  {
  }

  lemma InFive(x: V.Error, a: V.Errors, b: V.Errors, c: V.Errors, d: V.Errors, e: V.Errors)
    ensures x in a + b + c + d + e <==> x in a || x in b || x in c || x in d || x in e
  {
    InTwo(x, a, b);
    InTwo(x, a + b, c);
    InTwo(x, a + b + c, d);
    InTwo(x, a + b + c + d, e);
  }

  lemma HeaderIn(t: seq<string>, x: V.Error)
    requires |t| == 8 && V.HeaderErrors(t).Some?
    ensures ParseInt(t[0]).Some?
    ensures x in V.HeaderErrors(t).value <==>
            || x in V.Check(ParseInt(t[0]).value != 1, t[1], V.NotFirstLine) || x in V.Check(t[1] != "fileHeader", t[1], V.WrongTag)
            || x in V.Check(t[2] == t[3], t[1], V.SameSystems) || x in V.Check(!V.ValidDataIdentifier(t[4]), t[1], V.BadDataIdentifier)
            || x in V.Check(t[7] != "Y" && t[7] != "N", t[1], V.BadResetIndicator)
  {
    hide V.Check, ParseInt, V.ValidDataIdentifier;
    InFive(x, V.Check(ParseInt(t[0]).value != 1, t[1], V.NotFirstLine), V.Check(t[1] != "fileHeader", t[1], V.WrongTag),
           V.Check(t[2] == t[3], t[1], V.SameSystems), V.Check(!V.ValidDataIdentifier(t[4]), t[1], V.BadDataIdentifier),
           V.Check(t[7] != "Y" && t[7] != "N", t[1], V.BadResetIndicator));
  }

  lemma HeaderReports(t: seq<string>, p: V.Problem)
    requires |t| >= 2 && t[1] == "fileHeader" && V.HeaderErrors(t).Some?
    ensures V.Error(t[1], p) in V.HeaderErrors(t).value <==> HeaderBreaks(p, t)
  {
    if |t| == 8 {
      var x := V.Error(t[1], p);
      HeaderIn(t, x);
      hide ParseInt, V.HeaderErrors, V.Check;
      CheckHas(ParseInt(t[0]).value != 1, t[1], V.NotFirstLine, x);
      CheckHas(t[1] != "fileHeader", t[1], V.WrongTag, x);
      CheckHas(t[2] == t[3], t[1], V.SameSystems, x);
      CheckHas(!V.ValidDataIdentifier(t[4]), t[1], V.BadDataIdentifier, x);
      CheckHas(t[7] != "Y" && t[7] != "N", t[1], V.BadResetIndicator, x);
    }
  }

  lemma LicenceIn(dataId: string, t: seq<string>, system: V.System, x: V.Error)
    requires |t| == 9
    ensures V.LicenceErrors(dataId, t, system).Some?
    ensures x in V.LicenceErrors(dataId, t, system).value <==>
            || x in V.Check(t[1] != "licence", t[1], V.WrongTag)
            || x in V.Check(dataId == "licenceData" && !V.ValidAction(t[3]), t[1], V.BadAction)
            || x in V.Check(!V.ValidLicenceType(t[5]), t[1], V.BadLicenceType)
            || x in V.Check(system == V.Spire && t[6] != "E", t[1], V.NotExport)
  {
    hide V.Check, V.ValidAction, V.ValidLicenceType;
    var a, b := V.Check(t[1] != "licence", t[1], V.WrongTag), V.Check(dataId == "licenceData" && !V.ValidAction(t[3]), t[1], V.BadAction);
    var c := V.Check(!V.ValidLicenceType(t[5]), t[1], V.BadLicenceType);
    InTwo(x, a, b);
    InTwo(x, a + b, c);
    InTwo(x, a + b + c, V.Check(system == V.Spire && t[6] != "E", t[1], V.NotExport));
  }

  lemma LicenceBreaksMeans(p: V.Problem, dataId: string, t: seq<string>, system: V.System)
    requires |t| == 9
    ensures LicenceBreaks(p, dataId, t, system) <==>
            || (p == V.BadAction && dataId == "licenceData" && !V.ValidAction(t[3]))
            || (p == V.BadLicenceType && !V.ValidLicenceType(t[5]))
            || (p == V.NotExport && system == V.Spire && t[6] != "E")
  {
  }

  lemma LicenceReports(dataId: string, t: seq<string>, system: V.System, p: V.Problem)
    requires |t| >= 2 && t[1] == "licence" && V.LicenceErrors(dataId, t, system).Some?
    ensures V.Error(t[1], p) in V.LicenceErrors(dataId, t, system).value <==> LicenceBreaks(p, dataId, t, system)
  {
    if |t| == 9 {
      var x := V.Error(t[1], p);
      LicenceIn(dataId, t, system, x);
      LicenceBreaksMeans(p, dataId, t, system);
      CheckHas(t[1] != "licence", t[1], V.WrongTag, x);
      CheckHas(dataId == "licenceData" && !V.ValidAction(t[3]), t[1], V.BadAction, x);
      CheckHas(!V.ValidLicenceType(t[5]), t[1], V.BadLicenceType, x);
      CheckHas(system == V.Spire && t[6] != "E", t[1], V.NotExport, x);
      hide *;
    }
  }

  lemma TraderIn(t: seq<string>, system: V.System, postcodeOk: string -> bool, x: V.Error)
    requires |t| == 13 && V.TraderErrors(t, system, postcodeOk).Some?
    ensures V.DatesReversed(t[4], t[5]).Some?
    ensures x in V.TraderErrors(t, system, postcodeOk).value <==>
            || x in V.Check(t[1] != "trader", t[1], V.WrongTag) || x in V.Check(t[2] == "" && t[3] == "", t[1], V.NoTraderId)
            || x in V.Check(system == V.Spire && (|t[3]| < 12 || |t[3]| > 15), t[1], V.BadTraderIdLength)
            || x in V.Check(V.DatesReversed(t[4], t[5]).value, t[1], V.BadDates) || x in V.Check(|t[6]| > 80, t[1], V.NameTooLong)
            || x in V.LongLines(t[7..12], t[1]) || x in V.Check(!postcodeOk(t[12]), t[1], V.BadPostcode)
  {
    hide V.Check, V.LongLines, V.DatesReversed;
    var first := V.Check(t[1] != "trader", t[1], V.WrongTag) + V.Check(t[2] == "" && t[3] == "", t[1], V.NoTraderId)
                 + V.Check(system == V.Spire && (|t[3]| < 12 || |t[3]| > 15), t[1], V.BadTraderIdLength)
                 + V.Check(V.DatesReversed(t[4], t[5]).value, t[1], V.BadDates) + V.Check(|t[6]| > 80, t[1], V.NameTooLong);
    InFive(x, V.Check(t[1] != "trader", t[1], V.WrongTag), V.Check(t[2] == "" && t[3] == "", t[1], V.NoTraderId),
           V.Check(system == V.Spire && (|t[3]| < 12 || |t[3]| > 15), t[1], V.BadTraderIdLength),
           V.Check(V.DatesReversed(t[4], t[5]).value, t[1], V.BadDates), V.Check(|t[6]| > 80, t[1], V.NameTooLong));
    InTwo(x, first, V.LongLines(t[7..12], t[1]));
    InTwo(x, first + V.LongLines(t[7..12], t[1]), V.Check(!postcodeOk(t[12]), t[1], V.BadPostcode));
  }

  lemma TraderBreaksMeans(p: V.Problem, t: seq<string>, system: V.System, postcodeOk: string -> bool)
    requires |t| == 13 && V.DatesReversed(t[4], t[5]).Some?
    ensures TraderBreaks(p, t, system, postcodeOk) <==>
            || (p == V.NoTraderId && t[2] == "" && t[3] == "")
            || (p == V.BadTraderIdLength && system == V.Spire && (|t[3]| < 12 || |t[3]| > 15))
            || (p == V.BadDates && V.DatesReversed(t[4], t[5]).value)
            || (p == V.NameTooLong && |t[6]| > 80)
            || (p == V.AddressTooLong && TooLong(t, 7, 12))
            || (p == V.BadPostcode && !postcodeOk(t[12]))
  {
    hide ParseInt, TooLong;
  }

  lemma TraderReports(t: seq<string>, system: V.System, postcodeOk: string -> bool, p: V.Problem)
    requires |t| >= 2 && t[1] == "trader" && V.TraderErrors(t, system, postcodeOk).Some?
    ensures V.Error(t[1], p) in V.TraderErrors(t, system, postcodeOk).value <==> TraderBreaks(p, t, system, postcodeOk)
  {
    if |t| == 13 {
      hide *;
      var x := V.Error(t[1], p);
      TraderIn(t, system, postcodeOk, x);
      TraderBreaksMeans(p, t, system, postcodeOk);
      LongLinesAre(t, 7, 12, t[1], x);
      CheckHas(t[1] != "trader", t[1], V.WrongTag, x);
      CheckHas(t[2] == "" && t[3] == "", t[1], V.NoTraderId, x);
      CheckHas(system == V.Spire && (|t[3]| < 12 || |t[3]| > 15), t[1], V.BadTraderIdLength, x);
      CheckHas(V.DatesReversed(t[4], t[5]).value, t[1], V.BadDates, x);
      CheckHas(|t[6]| > 80, t[1], V.NameTooLong, x);
      CheckHas(!postcodeOk(t[12]), t[1], V.BadPostcode, x);
    }
  }

  lemma CountryReports(t: seq<string>, p: V.Problem)
    requires |t| >= 2 && t[1] == "country"
    ensures V.Error(t[1], p) in V.CountryErrors(t) <==> CountryBreaks(p, t)
  {
  }

  lemma ForeignTraderReports(t: seq<string>, p: V.Problem)
    requires |t| >= 2 && t[1] == "foreignTrader"
    ensures V.Error(t[1], p) in V.ForeignTraderErrors(t) <==> ForeignTraderBreaks(p, t)
  {
    if |t| == 10 {
      LongLinesAre(t, 3, 8, t[1], V.Error(t[1], p));
    }
    hide V.LongLines, TooLong;
  }

  lemma GoodsIn(t: seq<string>, system: V.System, x: V.Error)
    requires |t| == 19
    ensures var bad := if system == V.Spire then t[7] == "" else t[7] == "" && t[3] == "";
            x in V.ProductErrors(t, system) <==>
            || x in V.Check(t[1] != "line", t[1], V.WrongTag)
            || (t[8] != "O"
                && (|| x in V.Check(bad, t[1], V.NoDescription) || x in V.Check(!V.ValidControl(t[8]), t[1], V.BadControlledBy)
                    || x in V.Check(system == V.Spire && |t[10]| != 3, t[1], V.BadQuantityUnit)))
  {
    hide V.Check, V.ValidControl;
    var bad := if system == V.Spire then t[7] == "" else t[7] == "" && t[3] == "";
    var a, b, c := V.Check(t[1] != "line", t[1], V.WrongTag), V.Check(bad, t[1], V.NoDescription),
                   V.Check(!V.ValidControl(t[8]), t[1], V.BadControlledBy);
    var d := V.Check(system == V.Spire && |t[10]| != 3, t[1], V.BadQuantityUnit);
    InTwo(x, b, c);
    InTwo(x, b + c, d);
    InTwo(x, a, b + c + d);
    InTwo(x, a, []);
  }

  lemma GoodsBreakMeans(p: V.Problem, t: seq<string>, system: V.System)
    requires |t| == 19
    ensures var bad := if system == V.Spire then t[7] == "" else t[7] == "" && t[3] == "";
            GoodsBreak(p, t, system) <==>
            t[8] != "O" && (|| (p == V.NoDescription && bad) || (p == V.BadControlledBy && !V.ValidControl(t[8]))
                            || (p == V.BadQuantityUnit && system == V.Spire && |t[10]| != 3))
  {
  }

  lemma GoodsReports(t: seq<string>, system: V.System, p: V.Problem)
    requires |t| >= 2 && t[1] == "line"
    ensures V.Error(t[1], p) in V.ProductErrors(t, system) <==> GoodsBreak(p, t, system)
  {
    if |t| == 19 {
      hide *;
      var x := V.Error(t[1], p);
      var bad := if system == V.Spire then t[7] == "" else t[7] == "" && t[3] == "";
      GoodsIn(t, system, x);
      GoodsBreakMeans(p, t, system);
      CheckHas(t[1] != "line", t[1], V.WrongTag, x);
      CheckHas(bad, t[1], V.NoDescription, x);
      CheckHas(!V.ValidControl(t[8]), t[1], V.BadControlledBy, x);
      CheckHas(system == V.Spire && |t[10]| != 3, t[1], V.BadQuantityUnit, x);
    }
  }

  lemma OtherReports(dataId: string, t: seq<string>, system: V.System, postcodeOk: string -> bool, p: V.Problem)
    requires |t| >= 2 && t[1] !in {"fileHeader", "licence", "trader", "country", "foreignTrader", "line"}
    ensures V.LineErrors(dataId, t, system, postcodeOk).Some? && !Unreadable(t)
    ensures V.Error(t[1], p) in V.LineErrors(dataId, t, system, postcodeOk).value <==> Breaks(p, dataId, t, system, postcodeOk)
  {
  }

  lemma RaisesExactly(dataId: string, t: seq<string>, system: V.System, postcodeOk: string -> bool)
    requires |t| >= 2
    ensures V.LineErrors(dataId, t, system, postcodeOk).None? <==> Unreadable(t)
  {
    hide ParseInt, V.Check, V.LongLines, V.CountryErrors, V.ForeignTraderErrors, V.ProductErrors, V.ValidDataIdentifier;
  }

  /**
   For the columns of any line: the validator raises exactly when a column it needs cannot be read, and
   otherwise reports a problem exactly when the line breaks that rule.
   */
  lemma ReportsExactly(dataId: string, t: seq<string>, system: V.System, postcodeOk: string -> bool, p: V.Problem)
    requires |t| >= 2
    ensures V.LineErrors(dataId, t, system, postcodeOk).None? <==> Unreadable(t)
    ensures !Unreadable(t) ==>
              (V.Error(t[1], p) in V.LineErrors(dataId, t, system, postcodeOk).value <==> Breaks(p, dataId, t, system, postcodeOk))
  {
    RaisesExactly(dataId, t, system, postcodeOk);
    hide Unreadable, HeaderBreaks, LicenceBreaks, TraderBreaks, CountryBreaks, ForeignTraderBreaks, GoodsBreak;
    hide V.HeaderErrors, V.LicenceErrors, V.TraderErrors, V.CountryErrors, V.ForeignTraderErrors, V.ProductErrors;
    if !Unreadable(t) {
      match t[1] {
        case "fileHeader" => HeaderReports(t, p);
        case "licence" => LicenceReports(dataId, t, system, p);
        case "trader" => TraderReports(t, system, postcodeOk, p);
        case "country" => CountryReports(t, p);
        case "foreignTrader" => ForeignTraderReports(t, p);
        case "line" => GoodsReports(t, system, p);
        case _ => OtherReports(dataId, t, system, postcodeOk, p);
      }
    }
  }

  // ---------------------------------------------------------------- whole texts

  /** The data identifier that holds at the `k`-th line: that of the last header line before it. */
  function IdInForce(lines: seq<string>, k: nat, first: string): string
    requires k <= |lines|
  {
    if k == 0 then first
    else
      var t := Split(lines[k - 1], FIELD_SEP);
      if |t| >= 5 && t[1] == "fileHeader" then t[4] else IdInForce(lines, k - 1, first)
  }

  /** The columns of a line that is not empty can be read. */
  predicate Readable(line: string) {
    line == "" || (|Split(line, FIELD_SEP)| >= 2 && !Unreadable(Split(line, FIELD_SEP)))
  }

  /** The `k`-th line breaks no rule. */
  ghost predicate Follows(lines: seq<string>, k: nat, first: string, system: V.System, postcodeOk: string -> bool)
    requires k < |lines|
  {
    var t := Split(lines[k], FIELD_SEP);
    lines[k] != "" && |t| >= 2 ==> forall p :: !Breaks(p, IdInForce(lines, k, first), t, system, postcodeOk)
  }

  lemma {:induction false} IdLater(lines: seq<string>, k: nat, first: string)
    requires lines != [] && k < |lines|
    ensures var t := Split(lines[0], FIELD_SEP);
            IdInForce(lines, k + 1, first) == IdInForce(lines[1..], k, if |t| >= 5 && t[1] == "fileHeader" then t[4] else first)
  {
    hide Split;
    if k > 0 {
      IdLater(lines, k - 1, first);
      assert lines[1..][k - 1] == lines[k];
    }
  }

  /** All errors are of one record type. */
  predicate Own(errors: V.Errors, recordType: string) {
    forall k :: 0 <= k < |errors| ==> errors[k].recordType == recordType
  }

  lemma OwnAppend(a: V.Errors, b: V.Errors, recordType: string)
    requires Own(a, recordType) && Own(b, recordType)
    ensures Own(a + b, recordType)
  {
  }

  lemma CheckOwn(bad: bool, recordType: string, problem: V.Problem)
    ensures Own(V.Check(bad, recordType, problem), recordType)
  {
  }

  lemma {:induction false} LongLinesOwn(lines: seq<string>, recordType: string)
    ensures Own(V.LongLines(lines, recordType), recordType)
  {
    if lines != [] {
      LongLinesOwn(lines[1..], recordType);
      CheckOwn(|lines[0]| > 35, recordType, V.AddressTooLong);
      OwnAppend(V.Check(|lines[0]| > 35, recordType, V.AddressTooLong), V.LongLines(lines[1..], recordType), recordType);
    }
  }

  /** Seven checks one after the other. */
  lemma OwnSeven(a: V.Errors, b: V.Errors, c: V.Errors, d: V.Errors, e: V.Errors, f: V.Errors, g: V.Errors, recordType: string)
    requires Own(a, recordType) && Own(b, recordType) && Own(c, recordType) && Own(d, recordType)
    requires Own(e, recordType) && Own(f, recordType) && Own(g, recordType)
    ensures Own(a + b, recordType) && Own(a + b + c, recordType) && Own(a + b + c + d, recordType)
    ensures Own(a + b + c + d + e, recordType) && Own(a + b + c + d + e + f + g, recordType)
    ensures Own(a + (b + c + d), recordType)
  {
    hide Own;
    OwnAppend(a, b, recordType);
    OwnAppend(a + b, c, recordType);
    OwnAppend(a + b + c, d, recordType);
    OwnAppend(a + b + c + d, e, recordType);
    OwnAppend(a + b + c + d + e, f, recordType);
    OwnAppend(a + b + c + d + e + f, g, recordType);
    OwnAppend(b, c, recordType);
    OwnAppend(b + c, d, recordType);
    OwnAppend(a, b + c + d, recordType);
  }

  lemma OneOwn(recordType: string, problem: V.Problem)
    ensures Own([V.Error(recordType, problem)], recordType) && Own([], recordType)
  {
  }

  lemma HeaderOwn(t: seq<string>)
    requires |t| >= 2 && V.HeaderErrors(t).Some?
    ensures Own(V.HeaderErrors(t).value, t[1])
  {
    OneOwn(t[1], V.MissingValues);
    if |t| == 8 {
      var a := V.Check(ParseInt(t[0]).value != 1, t[1], V.NotFirstLine);
      var b := V.Check(t[1] != "fileHeader", t[1], V.WrongTag);
      var c := V.Check(t[2] == t[3], t[1], V.SameSystems);
      var d := V.Check(!V.ValidDataIdentifier(t[4]), t[1], V.BadDataIdentifier);
      var e := V.Check(t[7] != "Y" && t[7] != "N", t[1], V.BadResetIndicator);
      CheckOwn(ParseInt(t[0]).value != 1, t[1], V.NotFirstLine);
      CheckOwn(t[1] != "fileHeader", t[1], V.WrongTag);
      CheckOwn(t[2] == t[3], t[1], V.SameSystems);
      CheckOwn(!V.ValidDataIdentifier(t[4]), t[1], V.BadDataIdentifier);
      CheckOwn(t[7] != "Y" && t[7] != "N", t[1], V.BadResetIndicator);
      OwnSeven(a, b, c, d, e, a, a, t[1]);
      hide Own, V.Check;
    }
  }

  lemma LicenceOwn(dataId: string, t: seq<string>, system: V.System)
    requires |t| >= 2 && V.LicenceErrors(dataId, t, system).Some?
    ensures Own(V.LicenceErrors(dataId, t, system).value, t[1])
  {
    OneOwn(t[1], V.MissingValues);
    if |t| == 9 {
      CheckOwn(t[1] != "licence", t[1], V.WrongTag);
      CheckOwn(dataId == "licenceData" && !V.ValidAction(t[3]), t[1], V.BadAction);
      CheckOwn(!V.ValidLicenceType(t[5]), t[1], V.BadLicenceType);
      CheckOwn(system == V.Spire && t[6] != "E", t[1], V.NotExport);
      var a := V.Check(t[1] != "licence", t[1], V.WrongTag);
      OwnSeven(a, V.Check(dataId == "licenceData" && !V.ValidAction(t[3]), t[1], V.BadAction),
               V.Check(!V.ValidLicenceType(t[5]), t[1], V.BadLicenceType), V.Check(system == V.Spire && t[6] != "E", t[1], V.NotExport),
               a, a, a, t[1]);
      hide Own, V.Check;
    }
  }

  lemma TraderOwn(t: seq<string>, system: V.System, postcodeOk: string -> bool)
    requires |t| >= 2 && V.TraderErrors(t, system, postcodeOk).Some?
    ensures Own(V.TraderErrors(t, system, postcodeOk).value, t[1])
  {
    OneOwn(t[1], V.MissingValues);
    if |t| == 13 {
      var reversed := V.DatesReversed(t[4], t[5]).value;
      LongLinesOwn(t[7..12], t[1]);
      CheckOwn(t[1] != "trader", t[1], V.WrongTag);
      CheckOwn(t[2] == "" && t[3] == "", t[1], V.NoTraderId);
      CheckOwn(system == V.Spire && (|t[3]| < 12 || |t[3]| > 15), t[1], V.BadTraderIdLength);
      CheckOwn(reversed, t[1], V.BadDates);
      CheckOwn(|t[6]| > 80, t[1], V.NameTooLong);
      CheckOwn(!postcodeOk(t[12]), t[1], V.BadPostcode);
      OwnSeven(V.Check(t[1] != "trader", t[1], V.WrongTag), V.Check(t[2] == "" && t[3] == "", t[1], V.NoTraderId),
               V.Check(system == V.Spire && (|t[3]| < 12 || |t[3]| > 15), t[1], V.BadTraderIdLength),
               V.Check(reversed, t[1], V.BadDates), V.Check(|t[6]| > 80, t[1], V.NameTooLong), V.LongLines(t[7..12], t[1]),
               V.Check(!postcodeOk(t[12]), t[1], V.BadPostcode), t[1]);
      hide Own, V.Check, V.LongLines, V.DatesReversed;
    }
  }

  lemma CountryOwn(t: seq<string>)
    requires |t| >= 2
    ensures Own(V.CountryErrors(t), t[1])
  {
    OneOwn(t[1], V.MissingValues);
    if |t| == 5 {
      CheckOwn(t[1] != "country", t[1], V.WrongTag);
      CheckOwn(t[2] != "" && t[3] != "", t[1], V.CodeAndGroup);
      CheckOwn(!V.ValidCountryUse(t[4]), t[1], V.BadCountryUse);
      var a := V.Check(t[1] != "country", t[1], V.WrongTag);
      OwnSeven(a, V.Check(t[2] != "" && t[3] != "", t[1], V.CodeAndGroup), V.Check(!V.ValidCountryUse(t[4]), t[1], V.BadCountryUse),
               a, a, a, a, t[1]);
      hide Own, V.Check;
    }
  }

  lemma ForeignTraderOwn(t: seq<string>)
    requires |t| >= 2
    ensures Own(V.ForeignTraderErrors(t), t[1])
  {
    OneOwn(t[1], V.MissingValues);
    if |t| == 10 {
      LongLinesOwn(t[3..8], t[1]);
      CheckOwn(t[1] != "foreignTrader", t[1], V.WrongTag);
      CheckOwn(|t[2]| > 80, t[1], V.NameTooLong);
      CheckOwn(|t[8]| > 8, t[1], V.PostcodeTooLong);
      CheckOwn(|t[9]| > 2, t[1], V.CountryTooLong);
      var a := V.Check(t[1] != "foreignTrader", t[1], V.WrongTag);
      OwnSeven(a, V.Check(|t[2]| > 80, t[1], V.NameTooLong), V.LongLines(t[3..8], t[1]),
               V.Check(|t[8]| > 8, t[1], V.PostcodeTooLong), V.Check(|t[9]| > 2, t[1], V.CountryTooLong), a, a, t[1]);
      hide Own, V.Check, V.LongLines;
    }
  }

  lemma ProductOwn(t: seq<string>, system: V.System)
    requires |t| >= 2
    ensures Own(V.ProductErrors(t, system), t[1])
  {
    OneOwn(t[1], V.MissingValues);
    if |t| == 19 {
      var bad := if system == V.Spire then t[7] == "" else t[7] == "" && t[3] == "";
      CheckOwn(t[1] != "line", t[1], V.WrongTag);
      CheckOwn(bad, t[1], V.NoDescription);
      CheckOwn(!V.ValidControl(t[8]), t[1], V.BadControlledBy);
      CheckOwn(system == V.Spire && |t[10]| != 3, t[1], V.BadQuantityUnit);
      var a := V.Check(t[1] != "line", t[1], V.WrongTag);
      OwnAppend(a, [], t[1]);
      OwnSeven(a, V.Check(bad, t[1], V.NoDescription), V.Check(!V.ValidControl(t[8]), t[1], V.BadControlledBy),
               V.Check(system == V.Spire && |t[10]| != 3, t[1], V.BadQuantityUnit), a, a, a, t[1]);
      hide Own, V.Check;
    }
  }

  /** A line's errors are reported under its own type. */
  lemma LineErrorsOwn(dataId: string, t: seq<string>, system: V.System, postcodeOk: string -> bool)
    requires |t| >= 2 && V.LineErrors(dataId, t, system, postcodeOk).Some?
    ensures Own(V.LineErrors(dataId, t, system, postcodeOk).value, t[1])
  {
    OneOwn(t[1], V.MissingValues);
    OneOwn(t[1], V.BadRecordType);
    CheckOwn(t[1] != "end", t[1], V.WrongTag);
    CheckOwn(t[1] != "fileTrailer", t[1], V.WrongTag);
    CountryOwn(t);
    ForeignTraderOwn(t);
    ProductOwn(t, system);
    hide Own, V.Check, V.HeaderErrors, V.LicenceErrors, V.TraderErrors, V.CountryErrors, V.ForeignTraderErrors, V.ProductErrors;
    if V.HeaderErrors(t).Some? { HeaderOwn(t); }
    if V.LicenceErrors(dataId, t, system).Some? { LicenceOwn(dataId, t, system); }
    if V.TraderErrors(t, system, postcodeOk).Some? { TraderOwn(t, system, postcodeOk); }
  }

  lemma LineIsClean(dataId: string, t: seq<string>, system: V.System, postcodeOk: string -> bool)
    requires |t| >= 2
    ensures V.LineErrors(dataId, t, system, postcodeOk).None? <==> Unreadable(t)
    ensures !Unreadable(t) ==>
              (V.LineErrors(dataId, t, system, postcodeOk).value == [] <==> forall p :: !Breaks(p, dataId, t, system, postcodeOk))
  {
    hide V.LineErrors, Breaks, Unreadable;
    ReportsExactly(dataId, t, system, postcodeOk, V.WrongTag);
    if !Unreadable(t) {
      var errors := V.LineErrors(dataId, t, system, postcodeOk).value;
      LineErrorsOwn(dataId, t, system, postcodeOk);
      forall p
        ensures V.Error(t[1], p) in errors <==> Breaks(p, dataId, t, system, postcodeOk)
      {
        ReportsExactly(dataId, t, system, postcodeOk, p);
      }
      if errors != [] {
        assert errors[0] == V.Error(t[1], errors[0].problem) && errors[0] in errors;
        assert Breaks(errors[0].problem, dataId, t, system, postcodeOk);
      }
    }
  }

  lemma FirstReadable(lines: seq<string>)
    requires lines != []
    ensures (forall k :: 0 <= k < |lines| ==> Readable(lines[k])) <==>
            Readable(lines[0]) && forall k :: 0 <= k < |lines[1..]| ==> Readable(lines[1..][k])
  {
    hide Readable;
    assert forall k :: 0 <= k < |lines[1..]| ==> lines[1..][k] == lines[k + 1];
    if Readable(lines[0]) && forall k :: 0 <= k < |lines[1..]| ==> Readable(lines[1..][k]) {
      forall k | 0 <= k < |lines|
        ensures Readable(lines[k])
      {
        assert k > 0 ==> lines[1..][k - 1] == lines[k];
      }
    }
  }

  lemma FirstFollows(lines: seq<string>, first: string, next: string, system: V.System, postcodeOk: string -> bool)
    requires lines != []
    requires var t := Split(lines[0], FIELD_SEP); next == if |t| >= 5 && t[1] == "fileHeader" then t[4] else first
    ensures (forall k :: 0 <= k < |lines| ==> Follows(lines, k, first, system, postcodeOk)) <==>
            Follows(lines, 0, first, system, postcodeOk)
            && forall k :: 0 <= k < |lines[1..]| ==> Follows(lines[1..], k, next, system, postcodeOk)
  {
    hide Breaks, Split;
    forall k | 0 <= k < |lines[1..]|
      ensures Follows(lines[1..], k, next, system, postcodeOk) <==> Follows(lines, k + 1, first, system, postcodeOk)
    {
      IdLater(lines, k, first);
      assert lines[1..][k] == lines[k + 1];
    }
    hide Follows;
    if Follows(lines, 0, first, system, postcodeOk) && forall k :: 0 <= k < |lines[1..]| ==> Follows(lines[1..], k, next, system, postcodeOk) {
      forall k | 0 <= k < |lines|
        ensures Follows(lines, k, first, system, postcodeOk)
      {
        assert k > 0 ==> Follows(lines[1..], k - 1, next, system, postcodeOk);
      }
    }
  }

  /**
   For every text: the validator raises exactly when some line that is not empty cannot be read, and
   otherwise finds nothing wrong exactly when each such line breaks no rule under the data identifier of
   the last header before it.
   */
  lemma {:induction false} TextPassesExactly(lines: seq<string>, first: string, system: V.System, postcodeOk: string -> bool)
    ensures V.FileErrors(lines, first, system, postcodeOk).Some? <==> forall k :: 0 <= k < |lines| ==> Readable(lines[k])
    ensures V.FileErrors(lines, first, system, postcodeOk).Some? ==>
              (V.FileErrors(lines, first, system, postcodeOk).value == [] <==>
               forall k :: 0 <= k < |lines| ==> Follows(lines, k, first, system, postcodeOk))
  {
    hide V.LineErrors, Breaks, Unreadable, Split;
    if lines != [] {
      var t := Split(lines[0], FIELD_SEP);
      var next := if |t| >= 5 && t[1] == "fileHeader" then t[4] else first;
      SplitEmpty(lines[0]);
      FirstReadable(lines);
      FirstFollows(lines, first, next, system, postcodeOk);
      TextPassesExactly(lines[1..], next, system, postcodeOk);
      FirstLine(lines, first, system, postcodeOk);
      hide V.FileErrors, Follows, Readable;
    }
  }

  /** What the first line adds. */
  lemma FirstLine(lines: seq<string>, first: string, system: V.System, postcodeOk: string -> bool)
    requires lines != []
    ensures var t := Split(lines[0], FIELD_SEP);
            var next := if |t| >= 5 && t[1] == "fileHeader" then t[4] else first;
            var rest := V.FileErrors(lines[1..], next, system, postcodeOk);
            && (V.FileErrors(lines, first, system, postcodeOk).Some? <==> Readable(lines[0]) && rest.Some?)
            && (V.FileErrors(lines, first, system, postcodeOk).Some? ==>
                  (V.FileErrors(lines, first, system, postcodeOk).value == [] <==>
                   Follows(lines, 0, first, system, postcodeOk) && rest.value == []))
  {
    hide V.LineErrors, Breaks, Unreadable, Split;
    var t := Split(lines[0], FIELD_SEP);
    SplitEmpty(lines[0]);
    if |t| >= 2 {
      LineIsClean(first, t, system, postcodeOk);
      var next := if |t| >= 5 && t[1] == "fileHeader" then t[4] else first;
      var errors, rest := V.LineErrors(first, t, system, postcodeOk), V.FileErrors(lines[1..], next, system, postcodeOk);
      assert IdInForce(lines, 0, first) == first && V.NextDataId(first, t) == next;
      if errors.Some? && rest.Some? {
        assert |errors.value + rest.value| == |errors.value| + |rest.value|;
      }
    }
  }

  lemma SplitEmpty(line: string)
    ensures line == "" ==> Split(line, FIELD_SEP) == [""]
  {
  }
}
