/**
 Reading HMRC's licence reply file (mail/chief/licence_reply) and answering ICMS from it
 (mail/icms/tasks.py).
 */
module LicenceReply {
  import opened Text

  /** The records of a reply file; every attribute is kept as its text. */
  datatype Record =
    | FileHeader(source: string, destination: string, dataId: string, created: string, runNum: string)
    | FileError(code: string, text: string, position: string)
    | Accepted(transaction: string)
    | RejectedHeader(transaction: string)
    | RejectedError(code: string, text: string)
    | RejectedEnd(startRecordType: string, recordCount: string)
    | FileTrailer(acceptedCount: string, rejectedCount: string, fileErrorCount: string)

  datatype TransactionError = TransactionError(code: string, text: string)

  /** A rejected transaction: its header, its errors so far, and its end record once read. */
  datatype Rejected = Rejected(transaction: string, errors: seq<TransactionError>, end: Option<Record>)

  /** What the processor holds. */
  datatype Reply = Reply(
    header: Option<Record>, fileErrors: seq<Record>, trailer: Option<Record>,
    accepted: seq<string>, rejected: seq<Rejected>, current: Option<Rejected>)

  const EMPTY_REPLY := Reply(None, [], None, [], [], None)

  // ---------------------------------------------------------------- records as text

  function RecordType(r: Record): string {
    match r
    case FileHeader(_, _, _, _, _) => "fileHeader"
    case FileError(_, _, _) => "fileError"
    case Accepted(_) => "accepted"
    case RejectedHeader(_) => "rejected"
    case RejectedError(_, _) => "error"
    case RejectedEnd(_, _) => "end"
    case FileTrailer(_, _, _) => "fileTrailer"
  }

  function Attributes(r: Record): seq<string> {
    match r
    case FileHeader(a, b, c, d, e) => [a, b, c, d, e]
    case FileError(a, b, c) => [a, b, c]
    case Accepted(a) => [a]
    case RejectedHeader(a) => [a]
    case RejectedError(a, b) => [a, b]
    case RejectedEnd(a, b) => [a, b]
    case FileTrailer(a, b, c) => [a, b, c]
  }

  /** `LINE_MAP[field_type](*record_args)`; `None` is `KeyError` or `TypeError`. */
  function MakeRecord(recordType: string, args: seq<string>): Option<Record> {
    if recordType == "fileHeader" && |args| == 5 then Some(FileHeader(args[0], args[1], args[2], args[3], args[4]))
    else if recordType == "fileError" && |args| == 3 then Some(FileError(args[0], args[1], args[2]))
    else if recordType == "accepted" && |args| == 1 then Some(Accepted(args[0]))
    else if recordType == "rejected" && |args| == 1 then Some(RejectedHeader(args[0]))
    else if recordType == "error" && |args| == 2 then Some(RejectedError(args[0], args[1]))
    else if recordType == "end" && |args| == 2 then Some(RejectedEnd(args[0], args[1]))
    else if recordType == "fileTrailer" && |args| == 3 then Some(FileTrailer(args[0], args[1], args[2]))
    else None
  }

  /** `line_no, field_type, *record_args = line.split("\\")`, then the record. */
  function ParseLine(line: string): Option<Record> {
    var tokens := Split(line, FIELD_SEP);
    if |tokens| < 2 then None else MakeRecord(tokens[1], tokens[2..])
  }

  // ---------------------------------------------------------------- processing

  /** One record's effect; `None` is "rejected record is out of sequence". */
  function Take(r: Record, s: Reply): Option<Reply> {
    match r
    case FileHeader(_, _, _, _, _) => Some(s.(header := Some(r)))
    case FileError(_, _, _) => Some(s.(fileErrors := s.fileErrors + [r]))
    case Accepted(transaction) => Some(s.(accepted := s.accepted + [transaction]))
    case RejectedHeader(transaction) => Some(s.(current := Some(Rejected(transaction, [], None))))
    case RejectedError(code, text) =>
      if s.current.None? then None
      else
        var c := s.current.value;
        Some(s.(current := Some(c.(errors := c.errors + [TransactionError(code, text)]))))
    case RejectedEnd(_, _) =>
      if s.current.None? then None
      else Some(s.(rejected := s.rejected + [s.current.value.(end := Some(r))], current := None))
    case FileTrailer(_, _, _) => Some(s.(trailer := Some(r)))
  }

  function TakeAll(records: seq<Record>, s: Reply): Option<Reply> {
    if records == [] then Some(s)
    else
      match Take(records[0], s)
      case None => None
      case Some(s') => TakeAll(records[1..], s')
  }

  /** The records of the non-empty lines; `None` when one of them is no record. */
  function ParseLines(lines: seq<string>): Option<seq<Record>> {
    if lines == [] then Some([])
    else if lines[0] == "" then ParseLines(lines[1..])
    else
      match ParseLine(lines[0])
      case None => None
      case Some(r) =>
        match ParseLines(lines[1..])
        case None => None
        case Some(rest) => Some([r] + rest)
  }

  function ProcessLines(lines: seq<string>, s: Reply): Option<Reply> {
    if lines == [] then Some(s)
    else if lines[0] == "" then ProcessLines(lines[1..], s)
    else
      match ParseLine(lines[0])
      case None => None
      case Some(r) =>
        match Take(r, s)
        case None => None
        case Some(s') => ProcessLines(lines[1..], s')
  }

  /** `LicenceReplyProcessor(data)`; `None` when it raises. */
  function Process(data: string): Option<Reply> {
    ProcessLines(Split(data, LINE_SEP), EMPTY_REPLY)
  }

  /** `file_trailer_valid()`; `None` when there is no trailer or a count is no number. */
  function TrailerValid(s: Reply): Option<bool> {
    if s.trailer.None? || !s.trailer.value.FileTrailer? then None
    else
      match (ParseInt(s.trailer.value.acceptedCount), ParseInt(s.trailer.value.rejectedCount))
      case (Some(a), Some(r)) => Some(|s.accepted| == a && |s.rejected| == r)
      case _ => None
  }

  /** `file_valid()`: the trailer is not looked at when there are file errors. */
  function Valid(s: Reply): Option<bool> {
    if s.fileErrors != [] then Some(false) else TrailerValid(s)
  }

  class LicenceReplyProcessor {
    var valid: bool
    var header: Option<Record>
    var fileErrors: seq<Record>
    var trailer: Option<Record>
    var accepted: seq<string>
    var rejected: seq<Rejected>
    var current: Option<Rejected>

    function State(): Reply
      reads this
    {
      Reply(header, fileErrors, trailer, accepted, rejected, current)
    }

    constructor ()
      ensures State() == EMPTY_REPLY && !valid
    {
      valid := false;
      header, fileErrors, trailer, accepted, rejected, current := None, [], None, [], [], None;
    }

    /** `_load_licence_reply_data`; false when it raises. */
    method LoadLicenceReplyData(data: string) returns (ok: bool)
      modifies this
      ensures ok == ProcessLines(Split(data, LINE_SEP), old(State())).Some?
      ensures ok ==> State() == ProcessLines(Split(data, LINE_SEP), old(State())).value
      ensures valid == old(valid)
    {
      var lines := Split(data, LINE_SEP);
      ghost var whole := ProcessLines(lines, State());
      assert lines[0..] == lines;
      for i := 0 to |lines|
        invariant ProcessLines(lines[i..], State()) == whole && valid == old(valid)
      {
        assert lines[i..][1..] == lines[i + 1..];
        if lines[i] != "" {
          var fine := ProcessLine(lines[i]);
          if !fine {
            return false;
          }
        }
      }
      return true;
    }

    /** `_process_line`; false when it raises. */
    method ProcessLine(line: string) returns (ok: bool)
      modifies this
      ensures ok == (ParseLine(line).Some? && Take(ParseLine(line).value, old(State())).Some?)
      ensures ok ==> State() == Take(ParseLine(line).value, old(State())).value
      ensures valid == old(valid)
    {
      var parsed := ParseLine(line);
      if parsed.None? {
        return false;
      }
      var record := parsed.value;
      match record {
        case FileHeader(_, _, _, _, _) => header := Some(record);
        case FileError(_, _, _) => fileErrors := fileErrors + [record];
        case Accepted(transaction) => accepted := accepted + [transaction];
        case RejectedHeader(transaction) => current := Some(Rejected(transaction, [], None));
        case RejectedError(code, text) =>
          if current.None? {
            return false;
          }
          current := Some(current.value.(errors := current.value.errors + [TransactionError(code, text)]));
        case RejectedEnd(_, _) =>
          if current.None? {
            return false;
          }
          rejected := rejected + [current.value.(end := Some(record))];
          current := None;
        case FileTrailer(_, _, _) => trailer := Some(record);
      }
      return true;
    }

    /** `file_valid`. */
    method FileValid() returns (r: Option<bool>)
      modifies this`valid
      ensures r == Valid(State())
      ensures valid == if r.Some? then r.value else old(valid)
    {
      r := if fileErrors != [] then Some(false) else TrailerValid(State());
      if r.Some? {
        valid := r.value;
      }
    }
  }

  /** Reading line by line is reading the records, then taking them in order. */
  lemma {:induction false} ProcessIsParseThenTake(lines: seq<string>, s: Reply)
    ensures ProcessLines(lines, s).Some? ==>
              ParseLines(lines).Some? && TakeAll(ParseLines(lines).value, s) == ProcessLines(lines, s)
    ensures ParseLines(lines).Some? ==> ProcessLines(lines, s) == TakeAll(ParseLines(lines).value, s)
  {
    if lines != [] {
      if lines[0] == "" {
        ProcessIsParseThenTake(lines[1..], s);
      } else if ParseLine(lines[0]).Some? {
        var r := ParseLine(lines[0]).value;
        if ParseLines(lines[1..]).Some? {
          assert ([r] + ParseLines(lines[1..]).value)[1..] == ParseLines(lines[1..]).value;
        }
        if Take(r, s).Some? {
          ProcessIsParseThenTake(lines[1..], Take(r, s).value);
        }
      }
    }
  }

  // ---------------------------------------------------------------- printing

  function FormatLine(n: nat, r: Record): string {
    Join([Decimal(n), RecordType(r)] + Attributes(r), FIELD_SEP)
  }

  function FormatLines(records: seq<Record>, n: nat): seq<string> {
    if records == [] then [] else [FormatLine(n, records[0])] + FormatLines(records[1..], n + 1)
  }

  /** `create_licence_reply_file`. */
  function CreateLicenceReplyFile(records: seq<Record>): string {
    Join(FormatLines(records, 1), LINE_SEP)
  }

  predicate RecordOk(r: Record) {
    AllFree(Attributes(r), FIELD_SEP) && AllFree(Attributes(r), LINE_SEP)
  }

  predicate RecordsOk(records: seq<Record>) {
    forall k :: 0 <= k < |records| ==> RecordOk(records[k])
  }

  lemma MakeOwnRecord(r: Record)
    ensures MakeRecord(RecordType(r), Attributes(r)) == Some(r)
    ensures Free(RecordType(r), FIELD_SEP) && Free(RecordType(r), LINE_SEP) && RecordType(r) != ""
  {
  }

  lemma FormatLineParses(n: nat, r: Record)
    requires RecordOk(r)
    ensures ParseLine(FormatLine(n, r)) == Some(r)
    ensures FormatLine(n, r) != "" && Free(FormatLine(n, r), LINE_SEP)
  {
    hide MakeRecord, RecordType, Attributes;
    DecimalRoundTrip(n);
    MakeOwnRecord(r);
    var tokens := [Decimal(n), RecordType(r)] + Attributes(r);
    assert AllFree(tokens, FIELD_SEP) && AllFree(tokens, LINE_SEP);
    SplitJoin(tokens, FIELD_SEP);
    JoinFree(tokens, FIELD_SEP, LINE_SEP);
    assert tokens[2..] == Attributes(r);
  }

  lemma {:induction false} FormatLinesParse(records: seq<Record>, n: nat)
    requires RecordsOk(records)
    ensures ParseLines(FormatLines(records, n)) == Some(records)
    ensures AllFree(FormatLines(records, n), LINE_SEP)
    ensures |FormatLines(records, n)| == |records|
  {
    if records != [] {
      FormatLineParses(n, records[0]);
      FormatLinesParse(records[1..], n + 1);
      assert FormatLines(records, n)[1..] == FormatLines(records[1..], n + 1);
      assert [records[0]] + records[1..] == records;
    }
  }

  /** Printing a list of records and reading it gives exactly those records, in order. */
  lemma PrintThenParse(records: seq<Record>)
    requires RecordsOk(records)
    ensures ParseLines(Split(CreateLicenceReplyFile(records), LINE_SEP)) == Some(records)
    ensures Process(CreateLicenceReplyFile(records)) == TakeAll(records, EMPTY_REPLY)
  {
    FormatLinesParse(records, 1);
    if records == [] {
      assert Split("", LINE_SEP) == [""] && [""][1..] == [];
    } else {
      SplitJoin(FormatLines(records, 1), LINE_SEP);
    }
    ProcessIsParseThenTake(Split(CreateLicenceReplyFile(records), LINE_SEP), EMPTY_REPLY);
  }

  // ---------------------------------------------------------------- well-structured replies

  datatype Item =
    | AcceptedItem(transaction: string)
    | RejectedItem(transaction: string, errors: seq<TransactionError>, end: Record)
    | FileErrorItem(error: Record)

  datatype ReplyFile = ReplyFile(header: Record, items: seq<Item>, trailer: Record)

  predicate ItemOk(i: Item) {
    match i
    case AcceptedItem(_) => true
    case RejectedItem(_, _, end) => end.RejectedEnd?
    case FileErrorItem(error) => error.FileError?
  }

  predicate Structured(f: ReplyFile) {
    f.header.FileHeader? && f.trailer.FileTrailer? && ItemsOk(f.items)
  }

  predicate ItemsOk(items: seq<Item>) {
    forall k :: 0 <= k < |items| ==> ItemOk(items[k])
  }

  function ErrorRecords(errors: seq<TransactionError>): seq<Record> {
    if errors == [] then [] else [RejectedError(errors[0].code, errors[0].text)] + ErrorRecords(errors[1..])
  }

  function ItemRecords(i: Item): seq<Record> {
    match i
    case AcceptedItem(transaction) => [Accepted(transaction)]
    case RejectedItem(transaction, errors, end) => [RejectedHeader(transaction)] + ErrorRecords(errors) + [end]
    case FileErrorItem(error) => [error]
  }

  function AllRecords(items: seq<Item>): seq<Record> {
    if items == [] then [] else ItemRecords(items[0]) + AllRecords(items[1..])
  }

  function FileRecords(f: ReplyFile): seq<Record> {
    [f.header] + AllRecords(f.items) + [f.trailer]
  }

  function AcceptedIn(items: seq<Item>): seq<string> {
    if items == [] then []
    else (if items[0].AcceptedItem? then [items[0].transaction] else []) + AcceptedIn(items[1..])
  }

  function RejectedIn(items: seq<Item>): seq<Rejected> {
    if items == [] then []
    else (if items[0].RejectedItem? then [Rejected(items[0].transaction, items[0].errors, Some(items[0].end))] else [])
         + RejectedIn(items[1..])
  }

  function FileErrorsIn(items: seq<Item>): seq<Record> {
    if items == [] then [] else (if items[0].FileErrorItem? then [items[0].error] else []) + FileErrorsIn(items[1..])
  }

  lemma {:induction false} TakeAppend(a: seq<Record>, b: seq<Record>, s: Reply)
    ensures TakeAll(a + b, s) ==
            match TakeAll(a, s)
            case None => None
            case Some(s') => TakeAll(b, s')
  {
    if a == [] {
      assert a + b == b;
    } else {
      assert (a + b)[1..] == a[1..] + b;
      match Take(a[0], s) {
        case None =>
        case Some(s') => TakeAppend(a[1..], b, s');
      }
    }
  }

  lemma {:induction false} TakeErrors(errors: seq<TransactionError>, s: Reply)
    requires s.current.Some?
    ensures TakeAll(ErrorRecords(errors), s) ==
            Some(s.(current := Some(s.current.value.(errors := s.current.value.errors + errors))))
  {
    if errors == [] {
      assert s.current.value.errors + [] == s.current.value.errors;
    } else {
      var s' := Take(ErrorRecords(errors)[0], s).value;
      TakeErrors(errors[1..], s');
      assert errors == [errors[0]] + errors[1..];
      Assoc(s.current.value.errors, [errors[0]], errors[1..]);
      assert TransactionError(errors[0].code, errors[0].text) == errors[0];
    }
  }

  function AfterItem(i: Item, s: Reply): Reply {
    match i
    case AcceptedItem(transaction) => s.(accepted := s.accepted + [transaction])
    case RejectedItem(transaction, errors, end) => s.(rejected := s.rejected + [Rejected(transaction, errors, Some(end))])
    case FileErrorItem(error) => s.(fileErrors := s.fileErrors + [error])
  }

  lemma TakeOne(r: Record, s: Reply)
    ensures TakeAll([r], s) == Take(r, s)
  {
    assert [r][1..] == [];
    match Take(r, s) {
      case None =>
      case Some(s') => assert TakeAll([], s') == Some(s');
    }
  }

  lemma TakeItem(i: Item, s: Reply)
    requires ItemOk(i) && s.current.None?
    ensures TakeAll(ItemRecords(i), s) == Some(AfterItem(i, s))
  {
    match i {
      case AcceptedItem(transaction) => TakeOne(Accepted(transaction), s);
      case RejectedItem(transaction, errors, end) =>
        var s1 := s.(current := Some(Rejected(transaction, [], None)));
        TakeOne(RejectedHeader(transaction), s);
        TakeErrors(errors, s1);
        assert [] + errors == errors;
        var s2 := s1.(current := Some(Rejected(transaction, errors, None)));
        TakeOne(end, s2);
        TakeAppend([RejectedHeader(transaction)], ErrorRecords(errors), s);
        TakeAppend([RejectedHeader(transaction)] + ErrorRecords(errors), [end], s);
      case FileErrorItem(error) => TakeOne(error, s);
    }
  }

  lemma {:induction false} TakeItems(items: seq<Item>, s: Reply)
    requires ItemsOk(items) && s.current.None?
    ensures TakeAll(AllRecords(items), s) ==
            Some(s.(accepted := s.accepted + AcceptedIn(items), rejected := s.rejected + RejectedIn(items),
                    fileErrors := s.fileErrors + FileErrorsIn(items)))
  {
    if items == [] {
      assert s.accepted + [] == s.accepted && s.rejected + [] == s.rejected && s.fileErrors + [] == s.fileErrors;
    } else {
      TakeItem(items[0], s);
      TakeItems(items[1..], AfterItem(items[0], s));
      TakeAppend(ItemRecords(items[0]), AllRecords(items[1..]), s);
      AfterItemLists(items, s);
    }
  }

  lemma AfterItemLists(items: seq<Item>, s: Reply)
    requires items != []
    ensures var t := AfterItem(items[0], s);
            && t.accepted + AcceptedIn(items[1..]) == s.accepted + AcceptedIn(items)
            && t.rejected + RejectedIn(items[1..]) == s.rejected + RejectedIn(items)
            && t.fileErrors + FileErrorsIn(items[1..]) == s.fileErrors + FileErrorsIn(items)
  {
    Assoc(s.accepted, if items[0].AcceptedItem? then [items[0].transaction] else [], AcceptedIn(items[1..]));
    Assoc(s.rejected, if items[0].RejectedItem? then [Rejected(items[0].transaction, items[0].errors, Some(items[0].end))] else [],
          RejectedIn(items[1..]));
    Assoc(s.fileErrors, if items[0].FileErrorItem? then [items[0].error] else [], FileErrorsIn(items[1..]));
    assert s.accepted + [] == s.accepted && s.rejected + [] == s.rejected && s.fileErrors + [] == s.fileErrors;
  }

  /** What a well-structured reply file says. */
  function Meaning(f: ReplyFile): Reply {
    Reply(Some(f.header), FileErrorsIn(f.items), Some(f.trailer), AcceptedIn(f.items), RejectedIn(f.items), None)
  }

  /** Printing a well-structured reply and processing it gives its meaning: every answer, on its side, in order. */
  lemma PrintThenProcess(f: ReplyFile)
    requires Structured(f) && RecordsOk(FileRecords(f))
    ensures Process(CreateLicenceReplyFile(FileRecords(f))) == Some(Meaning(f))
  {
    PrintThenParse(FileRecords(f));
    var s1 := EMPTY_REPLY.(header := Some(f.header));
    TakeOne(f.header, EMPTY_REPLY);
    hide Split, Join, ParseLines, FormatLines, RecordsOk, ItemsOk, ItemRecords, AllRecords;
    TakeItems(f.items, s1);
    assert [] + AcceptedIn(f.items) == AcceptedIn(f.items) && [] + RejectedIn(f.items) == RejectedIn(f.items);
    assert [] + FileErrorsIn(f.items) == FileErrorsIn(f.items);
    var s2 := Meaning(f).(trailer := None);
    TakeOne(f.trailer, s2);
    TakeAppend([f.header], AllRecords(f.items), EMPTY_REPLY);
    TakeAppend([f.header] + AllRecords(f.items), [f.trailer], EMPTY_REPLY);
  }

  // ---------------------------------------------------------------- a validated reply drops nothing

  /** The number of `rejected` header lines. */
  function Headers(records: seq<Record>): nat {
    if records == [] then 0 else (if records[0].RejectedHeader? then 1 else 0) + Headers(records[1..])
  }

  function AcceptedOf(records: seq<Record>): seq<string> {
    if records == [] then []
    else (if records[0].Accepted? then [records[0].transaction] else []) + AcceptedOf(records[1..])
  }

  /** The errors before the next `rejected` header. */
  function ErrorsAhead(records: seq<Record>): seq<TransactionError> {
    if records == [] || records[0].RejectedHeader? then []
    else (if records[0].RejectedError? then [TransactionError(records[0].code, records[0].text)] else []) + ErrorsAhead(records[1..])
  }

  datatype Answer = Answer(transaction: string, errors: seq<TransactionError>)

  /** What a reader of the file sees: each `rejected` header with the errors up to the next one. */
  function Groups(records: seq<Record>): seq<Answer> {
    if records == [] then []
    else (if records[0].RejectedHeader? then [Answer(records[0].transaction, ErrorsAhead(records[1..]))] else []) + Groups(records[1..])
  }

  function Answers(rejected: seq<Rejected>): seq<Answer> {
    if rejected == [] then [] else [Answer(rejected[0].transaction, rejected[0].errors)] + Answers(rejected[1..])
  }

  lemma {:induction false} AnswersPush(rejected: seq<Rejected>, r: Rejected)
    ensures Answers(rejected + [r]) == Answers(rejected) + [Answer(r.transaction, r.errors)]
  {
    if rejected == [] {
      assert (rejected + [r])[1..] == [];
    } else {
      assert (rejected + [r])[1..] == rejected[1..] + [r];
      AnswersPush(rejected[1..], r);
    }
  }

  function Open(s: Reply): nat {
    if s.current.Some? then 1 else 0
  }

  /** The answers still to come, if every header gets closed. */
  function Pending(s: Reply, records: seq<Record>): seq<Answer> {
    (if s.current.Some? then [Answer(s.current.value.transaction, s.current.value.errors + ErrorsAhead(records))] else [])
    + Groups(records)
  }

  lemma {:induction false} NoErrorsWithoutHeader(records: seq<Record>, s: Reply)
    requires s.current.None? && TakeAll(records, s).Some?
    ensures ErrorsAhead(records) == []
  {
    if records != [] && !records[0].RejectedHeader? {
      NoErrorsWithoutHeader(records[1..], Take(records[0], s).value);
    }
  }

  /** Completed rejections never outnumber headers; if they are as many, none was dropped. */
  lemma {:induction false} TakeAllRejections(records: seq<Record>, s: Reply)
    requires TakeAll(records, s).Some?
    ensures var t := TakeAll(records, s).value;
            && |t.rejected| + Open(t) <= |s.rejected| + Open(s) + Headers(records)
            && (|t.rejected| == |s.rejected| + Open(s) + Headers(records) ==>
                  Answers(t.rejected) == Answers(s.rejected) + Pending(s, records))
  {
    if records == [] {
      assert Answers(s.rejected) + [] == Answers(s.rejected);
    } else {
      var r := records[0];
      var s' := Take(r, s).value;
      TakeAllRejections(records[1..], s');
      TakePending(records, s);
    }
  }

  /** One record moves an answer from pending to recorded, or is not an answer. */
  lemma TakePending(records: seq<Record>, s: Reply)
    requires records != [] && TakeAll(records, s).Some?
    ensures var s' := Take(records[0], s).value;
            && |s'.rejected| + Open(s') + Headers(records[1..]) <= |s.rejected| + Open(s) + Headers(records)
            && (|s'.rejected| + Open(s') + Headers(records[1..]) == |s.rejected| + Open(s) + Headers(records) ==>
                  Answers(s'.rejected) + Pending(s', records[1..]) == Answers(s.rejected) + Pending(s, records))
  {
    var r := records[0];
    var rest := records[1..];
    var s' := Take(r, s).value;
    var groups := Groups(rest);
    assert [] + groups == groups;
    match r {
      case RejectedHeader(transaction) =>
        assert [] + ErrorsAhead(rest) == ErrorsAhead(rest);
        assert s.current.None? ==> [] + Groups(records) == Groups(records);
      case RejectedError(code, text) =>
        var c := s.current.value;
        Assoc(c.errors, [TransactionError(code, text)], ErrorsAhead(rest));
      case RejectedEnd(_, _) =>
        var c := s.current.value;
        NoErrorsWithoutHeader(rest, s');
        AnswersPush(s.rejected, c.(end := Some(r)));
        assert c.errors + [] == c.errors;
        Assoc(Answers(s.rejected), [Answer(c.transaction, c.errors)], groups);
      case _ =>
        assert [] + ErrorsAhead(rest) == ErrorsAhead(rest);
    }
  }

  lemma TakeAccepted(r: Record, s: Reply)
    requires Take(r, s).Some?
    ensures Take(r, s).value.accepted == s.accepted + (if r.Accepted? then [r.transaction] else [])
  {
    assert s.accepted + [] == s.accepted;
  }

  lemma {:induction false} TakeAllAccepted(records: seq<Record>, s: Reply)
    requires TakeAll(records, s).Some?
    ensures TakeAll(records, s).value.accepted == s.accepted + AcceptedOf(records)
  {
    hide Take;
    if records == [] {
      assert s.accepted + [] == s.accepted;
    } else {
      var r := records[0];
      TakeAccepted(r, s);
      TakeAllAccepted(records[1..], Take(r, s).value);
      Assoc(s.accepted, if r.Accepted? then [r.transaction] else [], AcceptedOf(records[1..]));
    }
  }

  /**
   A validated reply drops nothing, for every text the processor accepts. Completed rejections
   never outnumber the `rejected` header lines. If the trailer counts are the numbers of
   `accepted` and `rejected` header lines, the file is valid exactly when it has no file error
   and every rejected header was closed; and then each is recorded in order with its own errors.
   */
  lemma ValidReplyDropsNothing(data: string)
    requires Process(data).Some?
    ensures var s := Process(data).value;
            var parsed := ParseLines(Split(data, LINE_SEP));
            && parsed.Some?
            && |s.rejected| <= Headers(parsed.value)
            && s.accepted == AcceptedOf(parsed.value)
            && (s.trailer.Some? && s.trailer.value.FileTrailer?
                && ParseInt(s.trailer.value.acceptedCount) == Some(|AcceptedOf(parsed.value)|)
                && ParseInt(s.trailer.value.rejectedCount) == Some(Headers(parsed.value)) ==>
                  && (Valid(s) == Some(true) <==> s.fileErrors == [] && |s.rejected| == Headers(parsed.value))
                  && (Valid(s) == Some(true) ==> Answers(s.rejected) == Groups(parsed.value) && s.current.None?))
  {
    var lines := Split(data, LINE_SEP);
    ProcessIsParseThenTake(lines, EMPTY_REPLY);
    var records := ParseLines(lines).value;
    TakeAllRejections(records, EMPTY_REPLY);
    TakeAllAccepted(records, EMPTY_REPLY);
    assert [] + AcceptedOf(records) == AcceptedOf(records);
    assert [] + Groups(records) == Groups(records);
  }

  // ---------------------------------------------------------------- when a reply is valid

  /** A column of a line, the line's number being column 0; nothing when the line is too short. */
  function Column(line: string, k: nat): string {
    var tokens := Split(line, FIELD_SEP);
    if k < |tokens| then tokens[k] else ""
  }

  /** Which column of a line each attribute is, for every line that is a record. */
  lemma LineMeans(line: string)
    requires ParseLine(line).Some?
    ensures var r := ParseLine(line).value;
            match Column(line, 1)
            case "fileHeader" =>
              r.FileHeader? && r.source == Column(line, 2) && r.destination == Column(line, 3) && r.dataId == Column(line, 4)
              && r.created == Column(line, 5) && r.runNum == Column(line, 6)
            case "fileError" => r.FileError? && r.code == Column(line, 2) && r.text == Column(line, 3) && r.position == Column(line, 4)
            case "accepted" => r.Accepted? && r.transaction == Column(line, 2)
            case "rejected" => r.RejectedHeader? && r.transaction == Column(line, 2)
            case "error" => r.RejectedError? && r.code == Column(line, 2) && r.text == Column(line, 3)
            case "end" => r.RejectedEnd? && r.startRecordType == Column(line, 2) && r.recordCount == Column(line, 3)
            case "fileTrailer" =>
              r.FileTrailer? && r.acceptedCount == Column(line, 2) && r.rejectedCount == Column(line, 3)
              && r.fileErrorCount == Column(line, 4)
            case _ => false
  {
    hide Split;
  }

  /** How many lines there are of a type. */
  function LinesOfType(lines: seq<string>, recordType: string): nat {
    if lines == [] then 0 else (if Column(lines[0], 1) == recordType then 1 else 0) + LinesOfType(lines[1..], recordType)
  }

  /** The last line of a type, or the one given when there is none. */
  function LastOfType(lines: seq<string>, recordType: string, before: Option<string>): Option<string> {
    if lines == [] then before
    else LastOfType(lines[1..], recordType, if Column(lines[0], 1) == recordType then Some(lines[0]) else before)
  }

  /** What the processor has counted, and the trailer line it has kept. */
  datatype Tally = Tally(accepted: nat, rejected: nat, fileErrors: nat, trailer: Option<string>)

  predicate Tallies(s: Reply, t: Tally) {
    && |s.accepted| == t.accepted && |s.rejected| == t.rejected && |s.fileErrors| == t.fileErrors
    && s.trailer.Some? == t.trailer.Some?
    && (s.trailer.Some? ==>
          && s.trailer.value.FileTrailer?
          && s.trailer.value.acceptedCount == Column(t.trailer.value, 2)
          && s.trailer.value.rejectedCount == Column(t.trailer.value, 3))
  }

  function Counted(lines: seq<string>, t: Tally): Tally {
    Tally(t.accepted + LinesOfType(lines, "accepted"), t.rejected + LinesOfType(lines, "end"),
          t.fileErrors + LinesOfType(lines, "fileError"), LastOfType(lines, "fileTrailer", t.trailer))
  }

  lemma TalliesOne(line: string, s: Reply, t: Tally)
    requires Tallies(s, t) && ParseLine(line).Some? && Take(ParseLine(line).value, s).Some?
    ensures Tallies(Take(ParseLine(line).value, s).value, Counted([line], t))
  {
    hide Split;
    var r := ParseLine(line).value;
    OneLine(line, "accepted");
    OneLine(line, "end");
    OneLine(line, "fileError");
    LastOne(line, "fileTrailer", t.trailer);
    hide LinesOfType, LastOfType;
    assert Column(line, 1) == RecordType(r);
  }

  lemma OneLine(line: string, recordType: string)
    ensures LinesOfType([line], recordType) == if Column(line, 1) == recordType then 1 else 0
  {
    assert [line][1..] == [];
  }

  lemma LastOne(line: string, recordType: string, before: Option<string>)
    ensures LastOfType([line], recordType, before) == if Column(line, 1) == recordType then Some(line) else before
  {
    assert [line][1..] == [];
  }

  lemma CountedFirst(lines: seq<string>, t: Tally)
    requires lines != []
    ensures Counted(lines, t) == Counted(lines[1..], Counted([lines[0]], t))
  {
    OneLine(lines[0], "accepted");
    OneLine(lines[0], "end");
    OneLine(lines[0], "fileError");
    LastOne(lines[0], "fileTrailer", t.trailer);
    hide Column;
  }

  lemma EmptyLineCounts(t: Tally)
    ensures Counted([""], t) == t
  {
    OneLine("", "accepted");
    OneLine("", "end");
    OneLine("", "fileError");
    LastOne("", "fileTrailer", t.trailer);
    hide LinesOfType, LastOfType;
    assert Column("", 1) == "";
  }

  lemma {:induction false} TalliesAll(lines: seq<string>, s: Reply, t: Tally)
    requires Tallies(s, t) && ProcessLines(lines, s).Some?
    ensures Tallies(ProcessLines(lines, s).value, Counted(lines, t))
  {
    hide Tallies, ParseLine, Take, Counted;
    if lines == [] {
      NothingCounted(t);
    } else {
      CountedFirst(lines, t);
      if lines[0] == "" {
        EmptyLineCounts(t);
        TalliesAll(lines[1..], s, t);
      } else {
        TalliesOne(lines[0], s, t);
        TalliesAll(lines[1..], Take(ParseLine(lines[0]).value, s).value, Counted([lines[0]], t));
      }
    }
  }

  lemma NothingCounted(t: Tally)
    ensures Counted([], t) == t
  {
  }

  /**
   For every text the processor accepts: the reply is valid exactly when it has no `fileError` line
   and the two counts on its last trailer line are the numbers of `accepted` lines and of closed
   rejections; it is refused exactly when it has a `fileError` line or one of two readable counts is
   wrong; and reading the counts raises in the remaining case.
   */
  lemma ValidExactlyWhenCountsAreTrue(data: string)
    requires Process(data).Some?
    ensures var lines := Split(data, LINE_SEP);
            var trailer := LastOfType(lines, "fileTrailer", None);
            var accepted := if trailer.Some? then ParseInt(Column(trailer.value, 2)) else None;
            var rejected := if trailer.Some? then ParseInt(Column(trailer.value, 3)) else None;
            var valid := Valid(Process(data).value);
            && (valid == Some(true) <==>
                  LinesOfType(lines, "fileError") == 0
                  && accepted == Some(LinesOfType(lines, "accepted")) && rejected == Some(LinesOfType(lines, "end")))
            && (valid == None <==> LinesOfType(lines, "fileError") == 0 && (accepted.None? || rejected.None?))
  {
    var lines := Split(data, LINE_SEP);
    var start := Tally(0, 0, 0, None);
    assert Tallies(EMPTY_REPLY, start);
    hide ProcessLines, LinesOfType, LastOfType, ParseInt, Column, Split;
    TalliesAll(lines, EMPTY_REPLY, start);
  }

  /** A reply file without one of its lines. */
  function WithoutItem(f: ReplyFile, k: nat): ReplyFile
    requires k < |f.items|
  {
    f.(items := f.items[..k] + f.items[k + 1..])
  }

  lemma {:induction false} AcceptedInAppend(a: seq<Item>, b: seq<Item>)
    ensures AcceptedIn(a + b) == AcceptedIn(a) + AcceptedIn(b)
    ensures FileErrorsIn(a + b) == FileErrorsIn(a) + FileErrorsIn(b)
  {
    if a == [] {
      assert a + b == b;
    } else {
      assert (a + b)[0] == a[0] && (a + b)[1..] == a[1..] + b;
      AcceptedInAppend(a[1..], b);
      ItemFirst(a);
      ItemFirst(a + b);
      hide AcceptedIn, FileErrorsIn;
      Assoc(if a[0].AcceptedItem? then [a[0].transaction] else [], AcceptedIn(a[1..]), AcceptedIn(b));
      Assoc(if a[0].FileErrorItem? then [a[0].error] else [], FileErrorsIn(a[1..]), FileErrorsIn(b));
    }
  }

  lemma ItemFirst(items: seq<Item>)
    requires items != []
    ensures AcceptedIn(items) == (if items[0].AcceptedItem? then [items[0].transaction] else []) + AcceptedIn(items[1..])
    ensures FileErrorsIn(items) == (if items[0].FileErrorItem? then [items[0].error] else []) + FileErrorsIn(items[1..])
  {
  }

  lemma OneAcceptedLess(f: ReplyFile, k: nat)
    requires k < |f.items| && f.items[k].AcceptedItem?
    ensures |AcceptedIn(WithoutItem(f, k).items)| == |AcceptedIn(f.items)| - 1
    ensures FileErrorsIn(WithoutItem(f, k).items) == FileErrorsIn(f.items)
  {
    var item := f.items[k];
    assert f.items == f.items[..k] + ([item] + f.items[k + 1..]);
    AcceptedInAppend(f.items[..k], [item] + f.items[k + 1..]);
    AcceptedInAppend([item], f.items[k + 1..]);
    AcceptedInAppend(f.items[..k], f.items[k + 1..]);
    assert [item][1..] == [];
    assert FileErrorsIn([item]) == [] && |AcceptedIn([item])| == 1;
  }

  lemma {:induction false} AllRecordsAppend(a: seq<Item>, b: seq<Item>)
    ensures AllRecords(a + b) == AllRecords(a) + AllRecords(b)
  {
    hide ItemRecords;
    if a == [] {
      assert a + b == b;
    } else {
      assert (a + b)[1..] == a[1..] + b;
      AllRecordsAppend(a[1..], b);
    }
  }

  lemma WithoutItemIsOk(f: ReplyFile, k: nat)
    requires Structured(f) && RecordsOk(FileRecords(f)) && k < |f.items|
    ensures Structured(WithoutItem(f, k)) && RecordsOk(FileRecords(WithoutItem(f, k)))
  {
    hide RecordOk, ItemRecords, ItemOk;
    var before, item, after := f.items[..k], f.items[k], f.items[k + 1..];
    assert f.items == before + ([item] + after);
    AllRecordsAppend(before, [item] + after);
    AllRecordsAppend([item], after);
    AllRecordsAppend(before, after);
    var whole := FileRecords(f);
    var cut := FileRecords(WithoutItem(f, k));
    var n := 1 + |AllRecords(before)|;
    forall i | 0 <= i < |cut|
      ensures RecordOk(cut[i])
    {
      assert cut[i] == if i < n then whole[i] else whole[i + |AllRecords([item])|];
    }
  }

  /** A reply with true counts is no longer valid when one of its `accepted` lines is lost. */
  lemma LosingAnAcceptedLineIsNoticed(f: ReplyFile, k: nat, accepted: nat, rejected: nat, fileErrors: nat)
    requires Structured(f) && RecordsOk(FileRecords(f)) && k < |f.items| && f.items[k].AcceptedItem?
    requires f.trailer == FileTrailer(Decimal(accepted), Decimal(rejected), Decimal(fileErrors))
    requires FileErrorsIn(f.items) == [] && accepted == |AcceptedIn(f.items)| && rejected == |RejectedIn(f.items)|
    ensures var whole := Process(CreateLicenceReplyFile(FileRecords(f)));
            var cut := Process(CreateLicenceReplyFile(FileRecords(WithoutItem(f, k))));
            whole.Some? && Valid(whole.value) == Some(true) && cut.Some? && Valid(cut.value) == Some(false)
  {
    hide Process, CreateLicenceReplyFile, FileRecords, ItemsOk, AcceptedIn, RejectedIn, FileErrorsIn, ParseInt, Decimal, RecordsOk;
    WithoutItemIsOk(f, k);
    PrintThenProcess(f);
    PrintThenProcess(WithoutItem(f, k));
    DecimalRoundTrip(accepted);
    DecimalRoundTrip(rejected);
    OneAcceptedLess(f, k);
  }

  // ---------------------------------------------------------------- the ICMS callback

  /** A LicencePayload row linked to the file. */
  datatype Payload = Payload(liteId: string, reference: string)

  datatype RejectedId = RejectedId(id: string, errors: seq<TransactionError>)

  datatype Callback = Callback(runNumber: string, accepted: seq<string>, rejected: seq<RejectedId>)

  /** `id_map[reference]`: a later row with the same reference wins; `None` is `KeyError`. */
  function IdFor(payloads: seq<Payload>, reference: string): Option<string> {
    if payloads == [] then None
    else
      var last := payloads[|payloads| - 1];
      if last.reference == reference then Some(last.liteId) else IdFor(payloads[..|payloads| - 1], reference)
  }

  function AcceptedIds(accepted: seq<string>, payloads: seq<Payload>): Option<seq<string>> {
    if accepted == [] then Some([])
    else
      match (IdFor(payloads, accepted[0]), AcceptedIds(accepted[1..], payloads))
      case (Some(id), Some(rest)) => Some([id] + rest)
      case _ => None
  }

  function RejectedIds(rejected: seq<Rejected>, payloads: seq<Payload>): Option<seq<RejectedId>> {
    if rejected == [] then Some([])
    else
      match (IdFor(payloads, rejected[0].transaction), RejectedIds(rejected[1..], payloads))
      case (Some(id), Some(rest)) => Some([RejectedId(id, rejected[0].errors)] + rest)
      case _ => None
  }

  /** `_get_licence_reply_data`, for the payloads of the LicenceData row the reply names. */
  function LicenceReplyData(s: Reply, payloads: seq<Payload>): Option<Callback> {
    if s.header.None? || !s.header.value.FileHeader? then None
    else
      match (AcceptedIds(s.accepted, payloads), RejectedIds(s.rejected, payloads))
      case (Some(a), Some(r)) => Some(Callback(s.header.value.runNum, a, r))
      case _ => None
  }

  function References(payloads: seq<Payload>): seq<string> {
    if payloads == [] then [] else [payloads[0].reference] + References(payloads[1..])
  }

  function LiteIds(payloads: seq<Payload>): seq<string> {
    if payloads == [] then [] else [payloads[0].liteId] + LiteIds(payloads[1..])
  }

  function RejectedReferences(rejected: seq<Rejected>): seq<string> {
    if rejected == [] then [] else [rejected[0].transaction] + RejectedReferences(rejected[1..])
  }

  function IdsIn(rejected: seq<RejectedId>): seq<string> {
    if rejected == [] then [] else [rejected[0].id] + IdsIn(rejected[1..])
  }

  predicate Distinct(payloads: seq<Payload>) {
    forall i, j :: 0 <= i < j < |payloads| ==> payloads[i].reference != payloads[j].reference
  }

  lemma {:induction false} IdForOwn(payloads: seq<Payload>, k: nat)
    requires Distinct(payloads) && k < |payloads|
    ensures IdFor(payloads, payloads[k].reference) == Some(payloads[k].liteId)
  {
    var n := |payloads| - 1;
    if k < n {
      assert payloads[k].reference != payloads[n].reference;
      IdForOwn(payloads[..n], k);
    }
  }

  /** Of several rows with one reference the last is answered. */
  lemma {:induction false} LastRowAnswers(payloads: seq<Payload>, k: nat)
    requires k < |payloads| && forall j :: k < j < |payloads| ==> payloads[j].reference != payloads[k].reference
    ensures IdFor(payloads, payloads[k].reference) == Some(payloads[k].liteId)
  {
    var n := |payloads| - 1;
    if k < n {
      LastRowAnswers(payloads[..n], k);
    }
  }

  lemma {:induction false} IdForKnown(payloads: seq<Payload>, reference: string)
    requires reference in References(payloads) && Distinct(payloads)
    ensures exists k :: 0 <= k < |payloads| && payloads[k].reference == reference
    ensures IdFor(payloads, reference).Some?
  {
    ReferencesAt(payloads);
    var k :| 0 <= k < |References(payloads)| && References(payloads)[k] == reference;
    IdForOwn(payloads, k);
  }

  lemma {:induction false} ReferencesAt(payloads: seq<Payload>)
    ensures |References(payloads)| == |payloads| && |LiteIds(payloads)| == |payloads|
    ensures forall k :: 0 <= k < |payloads| ==> References(payloads)[k] == payloads[k].reference
    ensures forall k :: 0 <= k < |payloads| ==> LiteIds(payloads)[k] == payloads[k].liteId
  {
    if payloads != [] {
      ReferencesAt(payloads[1..]);
    }
  }

  /** The ids of a list of known references. */
  function IdsFor(references: seq<string>, payloads: seq<Payload>): seq<string>
    requires forall k :: 0 <= k < |references| ==> IdFor(payloads, references[k]).Some?
  {
    seq(|references|, k requires 0 <= k < |references| => IdFor(payloads, references[k]).value)
  }

  predicate Known(references: seq<string>, payloads: seq<Payload>) {
    forall k :: 0 <= k < |references| ==> IdFor(payloads, references[k]).Some?
  }

  lemma {:induction false} AcceptedIdsAre(accepted: seq<string>, payloads: seq<Payload>)
    requires Known(accepted, payloads)
    ensures AcceptedIds(accepted, payloads) == Some(IdsFor(accepted, payloads))
  {
    if accepted != [] {
      AcceptedIdsAre(accepted[1..], payloads);
      assert IdsFor(accepted, payloads) == [IdFor(payloads, accepted[0]).value] + IdsFor(accepted[1..], payloads);
    }
  }

  lemma {:induction false} RejectedIdsAre(rejected: seq<Rejected>, payloads: seq<Payload>)
    requires Known(RejectedReferences(rejected), payloads)
    ensures RejectedIds(rejected, payloads).Some?
    ensures IdsIn(RejectedIds(rejected, payloads).value) == IdsFor(RejectedReferences(rejected), payloads)
  {
    if rejected != [] {
      var references := RejectedReferences(rejected);
      assert references[0] == rejected[0].transaction && references[1..] == RejectedReferences(rejected[1..]);
      RejectedIdsAre(rejected[1..], payloads);
      assert IdsFor(references, payloads) == [IdFor(payloads, references[0]).value] + IdsFor(references[1..], payloads);
    }
  }

  /** Permuting references permutes their ids. */
  lemma {:induction false} IdsPermute(a: seq<string>, b: seq<string>, payloads: seq<Payload>)
    requires Known(a, payloads) && Known(b, payloads) && multiset(a) == multiset(b)
    ensures multiset(IdsFor(a, payloads)) == multiset(IdsFor(b, payloads))
  {
    assert |a| == |multiset(a)| && |b| == |multiset(b)|;
    if a == [] {
      assert IdsFor(a, payloads) == IdsFor(b, payloads);
    } else {
      assert a[0] in multiset(b);
      var j :| 0 <= j < |b| && b[j] == a[0];
      hide IdFor;
      var c := Without(b, j);
      FirstAway(a);
      WithoutOne(b, j);
      CancelOne(a[0], multiset(a[1..]), multiset(c));
      WithoutKnown(b, j, payloads);
      FirstId(a, payloads);
      hide Known, Without, IdsFor;
      IdsPermute(a[1..], c, payloads);
      OneIdAway(b, j, payloads);
    }
  }

  lemma FirstAway(a: seq<string>)
    requires a != []
    ensures multiset(a) == multiset{a[0]} + multiset(a[1..])
  {
    assert a == [a[0]] + a[1..];
  }

  lemma FirstId(a: seq<string>, payloads: seq<Payload>)
    requires a != [] && Known(a, payloads)
    ensures Known(a[1..], payloads) && IdFor(payloads, a[0]).Some?
    ensures multiset(IdsFor(a, payloads)) == multiset{IdFor(payloads, a[0]).value} + multiset(IdsFor(a[1..], payloads))
  {
    hide IdFor;
    assert IdsFor(a, payloads) == [IdFor(payloads, a[0]).value] + IdsFor(a[1..], payloads);
  }

  lemma OneIdAway(b: seq<string>, j: nat, payloads: seq<Payload>)
    requires j < |b| && Known(b, payloads) && Known(Without(b, j), payloads)
    ensures IdFor(payloads, b[j]).Some?
    ensures multiset(IdsFor(b, payloads)) == multiset{IdFor(payloads, b[j]).value} + multiset(IdsFor(Without(b, j), payloads))
  {
    hide IdFor;
    WithoutKnown(b, j, payloads);
    WithoutOne(IdsFor(b, payloads), j);
  }

  lemma CancelOne(x: string, m: multiset<string>, n: multiset<string>)
    requires multiset{x} + m == multiset{x} + n
    ensures m == n
  {
    assert (multiset{x} + m) - multiset{x} == m;
    assert (multiset{x} + n) - multiset{x} == n;
  }

  function Without(s: seq<string>, j: nat): seq<string>
    requires j < |s|
  {
    s[..j] + s[j + 1..]
  }

  lemma WithoutOne(s: seq<string>, j: nat)
    requires j < |s|
    ensures multiset(s) == multiset{s[j]} + multiset(Without(s, j))
  {
    assert s == s[..j] + [s[j]] + s[j + 1..];
  }

  lemma WithoutKnown(s: seq<string>, j: nat, payloads: seq<Payload>)
    requires j < |s| && Known(s, payloads)
    ensures Known(Without(s, j), payloads)
    ensures IdsFor(Without(s, j), payloads) == Without(IdsFor(s, payloads), j)
  {
    var c := Without(s, j);
    forall k | 0 <= k < |c|
      ensures IdFor(payloads, c[k]).Some?
    {
      assert c[k] == s[if k < j then k else k + 1];
    }
  }

  /** The callback's accepted and rejected lists answer the reply's, id by reference, in order and with its errors. */
  predicate Answering(c: Callback, accepted: seq<string>, rejected: seq<Rejected>, payloads: seq<Payload>) {
    && |c.accepted| == |accepted|
    && (forall k :: 0 <= k < |accepted| ==> IdFor(payloads, accepted[k]) == Some(c.accepted[k]))
    && |c.rejected| == |rejected|
    && (forall k :: 0 <= k < |rejected| ==>
          IdFor(payloads, rejected[k].transaction) == Some(c.rejected[k].id) && c.rejected[k].errors == rejected[k].errors)
  }

  lemma {:induction false} RejectedIdsAnswer(rejected: seq<Rejected>, payloads: seq<Payload>)
    requires RejectedIds(rejected, payloads).Some?
    ensures var ids := RejectedIds(rejected, payloads).value;
            && |ids| == |rejected|
            && forall k :: 0 <= k < |rejected| ==>
                 IdFor(payloads, rejected[k].transaction) == Some(ids[k].id) && ids[k].errors == rejected[k].errors
  {
    if rejected != [] {
      RejectedIdsAnswer(rejected[1..], payloads);
    }
  }

  lemma {:induction false} AcceptedIdsKnown(accepted: seq<string>, payloads: seq<Payload>)
    ensures AcceptedIds(accepted, payloads).Some? <==> Known(accepted, payloads)
  {
    if accepted != [] {
      AcceptedIdsKnown(accepted[1..], payloads);
      assert Known(accepted, payloads) <==> IdFor(payloads, accepted[0]).Some? && Known(accepted[1..], payloads) by {
        KnownHead(accepted, payloads);
      }
    }
  }

  lemma KnownHead(references: seq<string>, payloads: seq<Payload>)
    requires references != []
    ensures Known(references, payloads) <==> IdFor(payloads, references[0]).Some? && Known(references[1..], payloads)
  {
    hide IdFor;
    if IdFor(payloads, references[0]).Some? && Known(references[1..], payloads) {
      forall k | 0 <= k < |references|
        ensures IdFor(payloads, references[k]).Some?
      {
        if k > 0 { assert references[1..][k - 1] == references[k]; }
      }
    }
  }

  lemma {:induction false} RejectedIdsKnown(rejected: seq<Rejected>, payloads: seq<Payload>)
    ensures RejectedIds(rejected, payloads).Some? <==> Known(RejectedReferences(rejected), payloads)
  {
    if rejected != [] {
      var references := RejectedReferences(rejected);
      assert references[0] == rejected[0].transaction && references[1..] == RejectedReferences(rejected[1..]);
      RejectedIdsKnown(rejected[1..], payloads);
      KnownHead(references, payloads);
    }
  }

  /** The callback can be built exactly when the reply has a header and every reference in it is a payload's. */
  lemma CallbackExactlyWhenKnown(s: Reply, payloads: seq<Payload>)
    ensures LicenceReplyData(s, payloads).Some? <==>
            s.header.Some? && s.header.value.FileHeader?
            && Known(s.accepted, payloads) && Known(RejectedReferences(s.rejected), payloads)
  {
    AcceptedIdsKnown(s.accepted, payloads);
    RejectedIdsKnown(s.rejected, payloads);
  }

  /**
   The callback holds every payload exactly once, on the side the reply put it. Payload
   references are distinct, and each of them is answered exactly once.
   */
  lemma CallbackHoldsEveryPayload(s: Reply, payloads: seq<Payload>)
    requires s.header.Some? && s.header.value.FileHeader?
    requires Distinct(payloads)
    requires multiset(s.accepted + RejectedReferences(s.rejected)) == multiset(References(payloads))
    ensures var c := LicenceReplyData(s, payloads);
            && c.Some?
            && multiset(c.value.accepted + IdsIn(c.value.rejected)) == multiset(LiteIds(payloads))
            && Answering(c.value, s.accepted, s.rejected, payloads)
            && c.value.runNumber == s.header.value.runNum
  {
    var rejections := RejectedReferences(s.rejected);
    AnsweredKnown(s.accepted, rejections, payloads);
    AcceptedIdsAre(s.accepted, payloads);
    RejectedIdsAre(s.rejected, payloads);
    IdsOfReferences(payloads);
    IdsPermute(s.accepted + rejections, References(payloads), payloads);
    IdsForAppend(s.accepted, rejections, payloads);
    RejectedIdsAnswer(s.rejected, payloads);
  }

  lemma IdsForAppend(a: seq<string>, b: seq<string>, payloads: seq<Payload>)
    requires Known(a, payloads) && Known(b, payloads) && Known(a + b, payloads)
    ensures IdsFor(a + b, payloads) == IdsFor(a, payloads) + IdsFor(b, payloads)
  {
  }

  lemma AnsweredKnown(accepted: seq<string>, rejections: seq<string>, payloads: seq<Payload>)
    requires Distinct(payloads)
    requires multiset(accepted + rejections) == multiset(References(payloads))
    ensures Known(accepted, payloads) && Known(rejections, payloads) && Known(accepted + rejections, payloads)
  {
    var answered := accepted + rejections;
    forall k | 0 <= k < |answered|
      ensures IdFor(payloads, answered[k]).Some?
    {
      assert answered[k] in multiset(answered);
      IdForKnown(payloads, answered[k]);
    }
    assert forall k :: 0 <= k < |accepted| ==> answered[k] == accepted[k];
    assert forall k :: 0 <= k < |rejections| ==> answered[|accepted| + k] == rejections[k];
  }

  lemma IdsOfReferences(payloads: seq<Payload>)
    requires Distinct(payloads)
    ensures Known(References(payloads), payloads)
    ensures IdsFor(References(payloads), payloads) == LiteIds(payloads)
  {
    ReferencesAt(payloads);
    forall k | 0 <= k < |payloads|
      ensures IdFor(payloads, References(payloads)[k]) == Some(LiteIds(payloads)[k])
    {
      IdForOwn(payloads, k);
    }
  }

  /**
   End to end: HMRC prints a reply to a file without file errors, answering each of its
   transactions once, with true counts. It is accepted as valid, and the callback holds every
   payload id exactly once, on the side its answer was on, a rejection with its errors.
   */
  lemma ReplyReachesIcms(f: ReplyFile, payloads: seq<Payload>, accepted: nat, rejected: nat, fileErrors: nat)
    requires Structured(f) && RecordsOk(FileRecords(f))
    requires FileErrorsIn(f.items) == []
    requires f.trailer == FileTrailer(Decimal(accepted), Decimal(rejected), Decimal(fileErrors))
    requires accepted == |AcceptedIn(f.items)| && rejected == |RejectedIn(f.items)|
    requires Distinct(payloads)
    requires multiset(AcceptedIn(f.items) + RejectedReferences(RejectedIn(f.items))) == multiset(References(payloads))
    ensures var s := Process(CreateLicenceReplyFile(FileRecords(f)));
            && s.Some? && Valid(s.value) == Some(true)
            && var c := LicenceReplyData(s.value, payloads);
               && c.Some? && multiset(c.value.accepted + IdsIn(c.value.rejected)) == multiset(LiteIds(payloads))
               && Answering(c.value, AcceptedIn(f.items), RejectedIn(f.items), payloads)
               && c.value.runNumber == f.header.runNum
  {
    PrintThenProcess(f);
    DecimalRoundTrip(accepted);
    DecimalRoundTrip(rejected);
    CallbackHoldsEveryPayload(Meaning(f), payloads);
  }
}
