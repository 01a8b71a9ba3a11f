/**
 Merging SPIRE's and LITE's replies to a usage file
 (mail/libraries/combine_usage_replies.py).
 */
module UsageReply {
  import opened Text
  import opened UsageSplit
  import opened UsageFiles
  import opened UsagePartition

  const ACCEPTED := "accepted"
  const REJECTED := "rejected"
  const ERROR := "error"
  const FILE_ERROR := "fileError"

  datatype AcceptedLicence = AcceptedLicence(id: string, goods: seq<string>)
  datatype RejectedGood = RejectedGood(id: string, error: string)
  datatype RejectedLicence = RejectedLicence(id: string, rejectedGoods: seq<RejectedGood>)
  datatype LiteResponse = LiteResponse(accepted: seq<AcceptedLicence>, rejected: seq<RejectedLicence>)

  /** LicenceIdMapping, GoodIdMapping, and this usage data's TransactionMapping rows. */
  datatype Mappings = Mappings(
    references: map<string, string>,
    goodLines: map<(string, string), nat>,
    transactions: map<(string, Option<nat>), string>)

  // ---------------------------------------------------------------- lookups

  /** The line number GoodIdMapping holds for a good; `None` is `DoesNotExist`. */
  function LineOf(reference: string, good: string, t: Mappings): Option<nat> {
    if (reference, good) in t.goodLines then Some(t.goodLines[(reference, good)]) else None
  }

  function TransactionAt(reference: string, line: Option<nat>, t: Mappings): Option<string> {
    if (reference, line) in t.transactions then Some(t.transactions[(reference, line)]) else None
  }

  /** The transaction of an accepted licence: only its first good is looked up. */
  function AcceptedTransaction(licence: AcceptedLicence, t: Mappings): Option<string> {
    if licence.id !in t.references then None
    else
      var reference := t.references[licence.id];
      if licence.goods == [] then TransactionAt(reference, None, t)
      else
        match LineOf(reference, licence.goods[0], t)
        case None => None
        case Some(line) => TransactionAt(reference, Some(line), t)
  }

  datatype Rejection = Rejection(transaction: string, line: nat, error: string)

  /** The first rejected good of a licence with one; `None` is an exception. */
  function RejectionOf(licence: RejectedLicence, t: Mappings): Option<Rejection>
    requires licence.rejectedGoods != []
  {
    var good := licence.rejectedGoods[0];
    if licence.id !in t.references then None
    else
      var reference := t.references[licence.id];
      match LineOf(reference, good.id, t)
      case None => None
      case Some(line) =>
        match TransactionAt(reference, Some(line), t)
        case None => None
        case Some(transaction) => Some(Rejection(transaction, line, good.error))
  }

  // ---------------------------------------------------------------- where an error is

  /** Whether the scan is inside the transaction's block after this line. */
  function Inside(line: string, transaction: string, inside: bool): bool {
    if Contains(line, LICENCE_USAGE) then Contains(line, transaction) else inside
  }

  /**
   The scan for the position of a goods line: the last matching line wins, and `""` means none
   matched. `j` lines have been read; `None` is `IndexError`.
   */
  function ScanFrom(lines: seq<string>, j: nat, inside: bool, found: string, transaction: string, number: nat): Option<string> {
    if lines == [] then Some(found)
    else
      var line := lines[0];
      var now := Inside(line, transaction, inside);
      if Contains(line, LINE) && now then
        var tokens := Split(line, FIELD_SEP);
        if |tokens| < 3 then None
        else ScanFrom(lines[1..], j + 1, now, if tokens[2] == Decimal(number) then Decimal(j + 1) else found, transaction, number)
      else ScanFrom(lines[1..], j + 1, now, found, transaction, number)
  }

  method FindErrorLine(lines: seq<string>, transaction: string, number: nat) returns (r: Option<string>)
    ensures r == ScanFrom(lines, 0, false, "", transaction, number)
  {
    var j := 0;
    var correctTransaction := false;
    var errorLine := "";
    assert lines[0..] == lines;
    while j < |lines|
      invariant j <= |lines|
      invariant ScanFrom(lines[j..], j, correctTransaction, errorLine, transaction, number)
             == ScanFrom(lines, 0, false, "", transaction, number)
    {
      assert lines[j..][1..] == lines[j + 1..];
      var line := lines[j];
      j := j + 1;
      if Contains(line, LICENCE_USAGE) {
        if Contains(line, transaction) {
          correctTransaction := true;
        } else {
          correctTransaction := false;
        }
      }
      if Contains(line, LINE) && correctTransaction {
        var tokens := Split(line, FIELD_SEP);
        if |tokens| < 3 {
          return None;
        }
        if tokens[2] == Decimal(number) {
          errorLine := Decimal(j);
        }
      }
    }
    return Some(errorLine);
  }

  // ---------------------------------------------------------------- the merged reply

  function LiteAccepted(licences: seq<AcceptedLicence>, t: Mappings): Option<seq<Fields>> {
    if licences == [] then Some([])
    else
      match AcceptedTransaction(licences[0], t)
      case None => None
      case Some(transaction) => Prefix([[ACCEPTED, transaction]], LiteAccepted(licences[1..], t))
  }

  function Prefix(first: seq<Fields>, rest: Option<seq<Fields>>): Option<seq<Fields>> {
    match rest
    case None => None
    case Some(records) => Some(first + records)
  }

  /** The three records of one rejection, the first of them numbered `n`. */
  function RejectionRecords(r: Rejection, position: string, n: nat): (records: seq<Fields>)
    ensures |records| == 3 && |records[2]| == 3 && records[2][2] == Decimal(|records|)
  {
    [[REJECTED, r.transaction],
     [ERROR, Decimal(n + 1), r.error + " in line " + position],
     [END, REJECTED, Decimal(n + 2 - (n - 1))]]
  }

  /** A licence without rejected goods is skipped. */
  function LiteRejection(licence: RejectedLicence, t: Mappings, lines: seq<string>, n: nat): Option<seq<Fields>> {
    if licence.rejectedGoods == [] then Some([])
    else
      match RejectionOf(licence, t)
      case None => None
      case Some(r) =>
        match ScanFrom(lines, 0, false, "", r.transaction, r.line)
        case None => None
        case Some(position) => Some(RejectionRecords(r, position, n))
  }

  function LiteRejected(licences: seq<RejectedLicence>, t: Mappings, lines: seq<string>, n: nat): Option<seq<Fields>> {
    if licences == [] then Some([])
    else
      match LiteRejection(licences[0], t, lines, n)
      case None => None
      case Some(records) => Prefix(records, LiteRejected(licences[1..], t, lines, n + |records|))
  }

  /** LITE's records, the first of them numbered `n`; `None` is an exception. */
  function LiteRecords(response: Option<LiteResponse>, t: Mappings, lines: seq<string>, n: nat): Option<seq<Fields>> {
    if response.None? then Some([])
    else
      match LiteAccepted(response.value.accepted, t)
      case None => None
      case Some(accepted) => Prefix(accepted, LiteRejected(response.value.rejected, t, lines, n + |accepted|))
  }

  /** SPIRE's lines before the first trailer. */
  function BeforeTrailer(lines: seq<string>): seq<string> {
    if lines == [] || Contains(lines[0], FILE_TRAILER) then [] else [lines[0]] + BeforeTrailer(lines[1..])
  }

  function OwnHeader(timeStamp: string): Fields {
    [FILE_HEADER, "SPIRE", "CHIEF", "usageReply", timeStamp, "<run-number>"]
  }

  predicate SpireReplied(spire: Option<string>) {
    spire.Some? && spire.value != ""
  }

  /** The lines before LITE's: SPIRE's, or a header of our own. */
  function FirstLines(spire: Option<string>, timeStamp: string): seq<string> {
    if SpireReplied(spire) then BeforeTrailer(Split(spire.value, LINE_SEP))
    else [NumberedLine(1, Body(OwnHeader(timeStamp)))]
  }

  /** The number of LITE's first record: our own header is written without advancing the counter. */
  function FirstNumber(spire: Option<string>): nat {
    if SpireReplied(spire) then 1 + |BeforeTrailer(Split(spire.value, LINE_SEP))| else 1
  }

  function TrailerFor(text: string): Fields {
    [FILE_TRAILER, Decimal(Count(text, ACCEPTED)), Decimal(Count(text, REJECTED) / 2), Decimal(Count(text, FILE_ERROR) / 2)]
  }

  function Merged(ediData: string, spire: Option<string>, response: Option<LiteResponse>, t: Mappings, timeStamp: string): Option<string> {
    var n := FirstNumber(spire);
    match LiteRecords(response, t, Split(ediData, LINE_SEP), n)
    case None => None
    case Some(records) =>
      var text := Terminated(FirstLines(spire, timeStamp)) + RecordsText(records, n);
      Some(text + NumberedLine(n + |records|, Body(TrailerFor(text))))
  }

  /** The mail being answered. */
  class UsageMail {
    const ediData: string
    const responseData: Option<string>
    var responseFilename: Option<string>

    constructor (ediData: string, responseData: Option<string>)
      ensures this.ediData == ediData && this.responseData == responseData && responseFilename == None
    {
      this.ediData := ediData;
      this.responseData := responseData;
      responseFilename := None;
    }

    /** `combine_lite_and_spire_usage_responses`, at the time `timeStamp`. */
    method CombineLiteAndSpireUsageResponses(response: Option<LiteResponse>, t: Mappings, timeStamp: string)
      returns (r: Option<string>)
      modifies this`responseFilename
      ensures r == Merged(ediData, responseData, response, t, timeStamp)
      ensures responseFilename ==
              if SpireReplied(responseData) then old(responseFilename)
              else Some("SPIRE_live_CHIEF_usageReply_<run-number>_" + timeStamp)
    {
      hide Terminated, NumberedLines, LiteRecords, FirstLines, FirstNumber, RecordsText, Count, Join, Decimal;
      var text, i := FirstPart(timeStamp);
      var ok, lite, next := PrintLite(response, t, Split(ediData, LINE_SEP), i);
      if !ok {
        return None;
      }
      text := text + lite;
      var trailer := [FILE_TRAILER, Decimal(Count(text, ACCEPTED)), Decimal(Count(text, REJECTED) / 2),
                      Decimal(Count(text, FILE_ERROR) / 2)];
      return Some(text + NumberedLine(next, Body(trailer)));
    }

    /** The lines before LITE's, and the number LITE's first record gets. */
    method FirstPart(timeStamp: string) returns (text: string, i: nat)
      modifies this`responseFilename
      ensures text == Terminated(FirstLines(responseData, timeStamp))
      ensures i == FirstNumber(responseData) && i >= 1
      ensures responseFilename ==
              if SpireReplied(responseData) then old(responseFilename)
              else Some("SPIRE_live_CHIEF_usageReply_<run-number>_" + timeStamp)
    {
      text, i := "", 1;
      if SpireReplied(responseData) {
        text, i := CopySpireLines(Split(responseData.value, LINE_SEP));
      } else {
        responseFilename := Some("SPIRE_live_CHIEF_usageReply_<run-number>_" + timeStamp);
        text := NumberedLine(1, Body(OwnHeader(timeStamp))) + [LINE_SEP];
        assert text == text + Terminated([]);
      }
    }
  }

  method CopySpireLines(lines: seq<string>) returns (text: string, i: nat)
    ensures text == Terminated(BeforeTrailer(lines))
    ensures i == 1 + |BeforeTrailer(lines)|
  {
    text, i := "", 1;
    ghost var copied: seq<string> := [];
    var k := 0;
    assert lines[0..] == lines && [] + BeforeTrailer(lines) == BeforeTrailer(lines);
    while k < |lines|
      invariant k <= |lines|
      invariant copied + BeforeTrailer(lines[k..]) == BeforeTrailer(lines)
      invariant text == Terminated(copied) && i == 1 + |copied|
    {
      assert lines[k..][1..] == lines[k + 1..];
      if Contains(lines[k], FILE_TRAILER) {
        break;
      }
      Assoc(copied, [lines[k]], BeforeTrailer(lines[k + 1..]));
      TerminatedPush(copied, lines[k]);
      Assoc(Terminated(copied), lines[k], [LINE_SEP]);
      copied := copied + [lines[k]];
      text := text + (lines[k] + [LINE_SEP]);
      i := i + 1;
      k := k + 1;
    }
    assert BeforeTrailer(lines[k..]) == [];
    assert copied + [] == copied;
  }

  /** The text of records numbered from `n`, each line ended. */
  function RecordsText(records: seq<Fields>, n: nat): string {
    Terminated(NumberedLines(Bodies(records), n, ""))
  }

  lemma RecordsPush(records: seq<Fields>, r: Fields, n: nat)
    ensures RecordsText(records + [r], n) == RecordsText(records, n) + (NumberedLine(n + |records|, Body(r)) + [LINE_SEP])
  {
    BodiesAppend(records, [r]);
    assert Bodies([r]) == [Body(r)];
    BodiesLength(records);
    NumberedLinesPush(Bodies(records), Body(r), n, "");
    var line := NumberedLine(n + |records|, Body(r));
    assert line + "" == line;
    TerminatedPush(NumberedLines(Bodies(records), n, ""), line);
    Assoc(RecordsText(records, n), line, [LINE_SEP]);
  }

  lemma {:induction false} BodiesLength(records: seq<Fields>)
    ensures |Bodies(records)| == |records|
  {
    if records != [] {
      BodiesLength(records[1..]);
    }
  }

  lemma {:induction false} TerminatedAppend(a: seq<string>, b: seq<string>)
    ensures Terminated(a + b) == Terminated(a) + Terminated(b)
  {
    if a == [] {
      assert a + b == b;
      assert "" + Terminated(b) == Terminated(b);
    } else {
      assert (a + b)[1..] == a[1..] + b;
      TerminatedAppend(a[1..], b);
      Assoc(a[0] + [LINE_SEP], Terminated(a[1..]), Terminated(b));
    }
  }

  lemma RecordsAppend(a: seq<Fields>, b: seq<Fields>, n: nat)
    ensures RecordsText(a + b, n) == RecordsText(a, n) + RecordsText(b, n + |a|)
  {
    BodiesAppend(a, b);
    BodiesLength(a);
    NumberedLinesAppend(Bodies(a), Bodies(b), n, "");
    TerminatedAppend(NumberedLines(Bodies(a), n, ""), NumberedLines(Bodies(b), n + |a|, ""));
  }

  method PrintAccepted(licences: seq<AcceptedLicence>, t: Mappings, start: nat) returns (ok: bool, text: string, i: nat)
    ensures ok == LiteAccepted(licences, t).Some?
    ensures ok ==> text == RecordsText(LiteAccepted(licences, t).value, start)
    ensures ok ==> i == start + |LiteAccepted(licences, t).value|
  {
    text, i := "", start;
    ghost var done: seq<Fields> := [];
    assert licences[0..] == licences;
    assert LiteAccepted(licences, t).Some? ==> [] + LiteAccepted(licences, t).value == LiteAccepted(licences, t).value;
    for k := 0 to |licences|
      invariant Prefix(done, LiteAccepted(licences[k..], t)) == LiteAccepted(licences, t)
      invariant text == RecordsText(done, start) && i == start + |done|
    {
      assert licences[k..][1..] == licences[k + 1..];
      var licence := licences[k];
      if licence.id !in t.references {
        return false, text, i;
      }
      var reference := t.references[licence.id];
      var line: Option<nat> := None;
      if licence.goods != [] {
        line := LineOf(reference, licence.goods[0], t);
        if line.None? {
          return false, text, i;
        }
      }
      var transaction := TransactionAt(reference, line, t);
      if transaction.None? {
        return false, text, i;
      }
      var record := [ACCEPTED, transaction.value];
      RecordsPush(done, record, start);
      if LiteAccepted(licences[k + 1..], t).Some? {
        Assoc(done, [record], LiteAccepted(licences[k + 1..], t).value);
      }
      done := done + [record];
      text := text + (NumberedLine(i, Body(record)) + [LINE_SEP]);
      i := i + 1;
    }
    assert done + [] == done;
    return true, text, i;
  }

  /** The three lines of one rejection. */
  method PrintRejection(r: Rejection, position: string, start: nat) returns (text: string, i: nat)
    requires start >= 1
    ensures text == RecordsText(RejectionRecords(r, position, start), start)
    ensures i == start + 3
  {
    i := start;
    var startLine := i - 1;
    var header := [REJECTED, r.transaction];
    RecordsPush([], header, start);
    text := NumberedLine(i, Body(header)) + [LINE_SEP];
    assert RecordsText([], start) + text == text && [] + [header] == [header];
    i := i + 1;
    var error := [ERROR, Decimal(i), r.error + " in line " + position];
    RecordsPush([header], error, start);
    assert [header] + [error] == [header, error];
    text := text + (NumberedLine(i, Body(error)) + [LINE_SEP]);
    i := i + 1;
    var end := [END, REJECTED, Decimal(i - startLine)];
    RecordsPush([header, error], end, start);
    text := text + (NumberedLine(i, Body(end)) + [LINE_SEP]);
    i := i + 1;
    assert [header, error] + [end] == RejectionRecords(r, position, start);
  }

  method PrintRejected(licences: seq<RejectedLicence>, t: Mappings, lines: seq<string>, start: nat)
    returns (ok: bool, text: string, i: nat)
    requires start >= 1
    ensures ok == LiteRejected(licences, t, lines, start).Some?
    ensures ok ==> text == RecordsText(LiteRejected(licences, t, lines, start).value, start)
    ensures ok ==> i == start + |LiteRejected(licences, t, lines, start).value|
  {
    hide ScanFrom, RejectionRecords, RejectionOf;
    text, i := "", start;
    ghost var whole := LiteRejected(licences, t, lines, start);
    ghost var done: seq<Fields> := [];
    assert licences[0..] == licences;
    assert whole.Some? ==> [] + whole.value == whole.value;
    assert RecordsText([], start) == "";
    hide RecordsText;
    for k := 0 to |licences|
      invariant Prefix(done, LiteRejected(licences[k..], t, lines, i)) == whole
      invariant text == RecordsText(done, start) && i == start + |done|
    {
      assert licences[k..][1..] == licences[k + 1..];
      var licence := licences[k];
      ghost var records := LiteRejection(licence, t, lines, i);
      if licence.rejectedGoods == [] {
        PrefixTwice(done, [], LiteRejected(licences[k + 1..], t, lines, i));
        assert done + [] == done;
        continue;
      }
      var found := RejectionOf(licence, t);
      if found.None? {
        return false, text, i;
      }
      var position := FindErrorLine(lines, found.value.transaction, found.value.line);
      if position.None? {
        return false, text, i;
      }
      var printed, next := PrintRejection(found.value, position.value, i);
      RejectionLength(found.value, position.value, i);
      RecordsAppend(done, records.value, start);
      PrefixTwice(done, records.value, LiteRejected(licences[k + 1..], t, lines, next));
      done := done + records.value;
      text := text + printed;
      i := next;
    }
    assert done + [] == done;
    return true, text, i;
  }

  lemma RejectionLength(r: Rejection, position: string, n: nat)
    ensures |RejectionRecords(r, position, n)| == 3
  {
  }

  method PrintLite(response: Option<LiteResponse>, t: Mappings, lines: seq<string>, start: nat)
    returns (ok: bool, text: string, i: nat)
    requires start >= 1
    ensures ok == LiteRecords(response, t, lines, start).Some?
    ensures ok ==> text == RecordsText(LiteRecords(response, t, lines, start).value, start)
    ensures ok ==> i == start + |LiteRecords(response, t, lines, start).value|
  {
    if response.None? {
      assert RecordsText([], start) == "";
      return true, "", start;
    }
    hide RecordsText;
    var accepted, rejected;
    ok, accepted, i := PrintAccepted(response.value.accepted, t, start);
    if !ok {
      return false, "", i;
    }
    ok, rejected, i := PrintRejected(response.value.rejected, t, lines, i);
    if !ok {
      return false, "", i;
    }
    ghost var a := LiteAccepted(response.value.accepted, t).value;
    RecordsAppend(a, LiteRejected(response.value.rejected, t, lines, start + |a|).value, start);
    return true, accepted + rejected, i;
  }

  lemma PrefixTwice(a: seq<Fields>, b: seq<Fields>, rest: Option<seq<Fields>>)
    ensures Prefix(a, Prefix(b, rest)) == Prefix(a + b, rest)
  {
    if rest.Some? {
      Assoc(a, b, rest.value);
    }
  }
}
