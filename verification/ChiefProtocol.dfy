/**
 CHIEF records and line files (mail/libraries/chieftypes.py, mail/libraries/chiefprotocol.py):
 line numbers, the counts on `end` records, and the text of a file.
 */
module ChiefProtocol {
  import opened Text

  const LICENCE := "licence"

  /** The records this service writes; attributes it never sets are left out and print as empty. */
  datatype Record =
    | FileHeader(source: string, destination: string, dataId: string, created: string, runNum: nat, reset: string)
    | FileTrailer(transactionCount: nat)
    | End(startRecordType: string, recordCount: Option<nat>)
    | Licence(transaction: string, action: string, reference: string, licenceType: Option<string>, usage: string,
              startDate: string, endDate: string)
    | Trader(rpaTraderId: Option<string>, traderStart: string, traderEnd: string, name: Option<string>,
             address1: Option<string>, address2: Option<string>, address3: Option<string>, address4: Option<string>,
             address5: Option<string>, postcode: Option<string>)
    | Country(code: Option<string>, group: Option<string>, use: string)
    | ForeignTrader(foreignName: Option<string>, line1: Option<string>, line2: string, line3: string, line4: string,
                    line5: string, foreignPostcode: string, country: string)
    | Restrictions(text: string)
    | DataLine(lineNum: nat, commodity: Option<string>, description: Option<string>, controlledBy: string,
               quantityUnit: Option<string>, quantity: Option<string>)

  function RecordType(r: Record): string {
    match r
    case FileHeader(_, _, _, _, _, _) => "fileHeader"
    case FileTrailer(_) => "fileTrailer"
    case End(_, _) => "end"
    case Licence(_, _, _, _, _, _, _) => LICENCE
    case Trader(_, _, _, _, _, _, _, _, _, _) => "trader"
    case Country(_, _, _) => "country"
    case ForeignTrader(_, _, _, _, _, _, _, _) => "foreignTrader"
    case Restrictions(_) => "restrictions"
    case DataLine(_, _, _, _, _, _) => "line"
  }

  /** `"" if v is None else str(v)`. */
  function Shown(v: Option<string>): string {
    match v
    case None => ""
    case Some(s) => s
  }

  /** The attributes after line number and type, in the order of the dataclass. */
  function Attributes(r: Record): seq<string> {
    match r
    case FileHeader(source, destination, dataId, created, runNum, reset) =>
      [source, destination, dataId, created, Decimal(runNum), reset]
    case FileTrailer(count) => [Decimal(count)]
    case End(start, count) => [start, if count.Some? then Decimal(count.value) else ""]
    case Licence(transaction, action, reference, licenceType, usage, start, end) =>
      [transaction, action, reference, Shown(licenceType), usage, start, end]
    case Trader(rpa, start, end, name, a1, a2, a3, a4, a5, postcode) =>
      ["", Shown(rpa), start, end, Shown(name), Shown(a1), Shown(a2), Shown(a3), Shown(a4), Shown(a5), Shown(postcode)]
    case Country(code, group, use) => [Shown(code), Shown(group), use]
    case ForeignTrader(name, l1, l2, l3, l4, l5, postcode, country) => [Shown(name), Shown(l1), l2, l3, l4, l5, postcode, country]
    case Restrictions(text) => [text]
    case DataLine(n, commodity, description, controlledBy, unit, quantity) =>
      [Decimal(n), Shown(commodity), "", "", "", Shown(description), controlledBy, "", Shown(unit), "", Shown(quantity),
       "", "", "", "", "", ""]
  }

  /** The number of fields DES236 gives the record type, line number and type included. */
  function FieldCount(r: Record): nat {
    match r
    case FileHeader(_, _, _, _, _, _) => 8
    case FileTrailer(_) => 3
    case End(_, _) => 4
    case Licence(_, _, _, _, _, _, _) => 9
    case Trader(_, _, _, _, _, _, _, _, _, _) => 13
    case Country(_, _, _) => 5
    case ForeignTrader(_, _, _, _, _, _, _, _) => 10
    case Restrictions(_) => 3
    case DataLine(_, _, _, _, _, _) => 19
  }

  function Values(n: nat, r: Record): seq<string> {
    [Decimal(n), RecordType(r)] + Attributes(r)
  }

  /** `format_line` of a numbered record. */
  function FormatLine(n: nat, r: Record): string {
    Join(Values(n, r), FIELD_SEP)
  }

  predicate Clean(r: Record) {
    AllFree(Attributes(r), FIELD_SEP) && AllFree(Attributes(r), LINE_SEP)
  }

  predicate AllClean(records: seq<Record>) {
    forall k :: 0 <= k < |records| ==> Clean(records[k])
  }

  lemma TypeFree(r: Record)
    ensures Free(RecordType(r), FIELD_SEP) && Free(RecordType(r), LINE_SEP)
  {
  }

  /** A printed line splits back into its own fields, as many as its type has. */
  lemma LineSplitsBack(n: nat, r: Record)
    requires Clean(r)
    ensures Split(FormatLine(n, r), FIELD_SEP) == Values(n, r)
    ensures |Values(n, r)| == FieldCount(r)
    ensures FormatLine(n, r) != "" && Free(FormatLine(n, r), LINE_SEP)
  {
    hide RecordType;
    DecimalRoundTrip(n);
    TypeFree(r);
    SplitJoin(Values(n, r), FIELD_SEP);
    JoinFree(Values(n, r), FIELD_SEP, LINE_SEP);
  }

  // ---------------------------------------------------------------- numbering

  /**
   `resolve_line_numbers` on records numbered from `n`: every `end` record is given the distance
   to the latest record of its start type. `None` is `KeyError`.
   */
  function Resolve(records: seq<Record>, n: nat, starts: map<string, nat>): Option<seq<Record>> {
    if records == [] then Some([])
    else
      var r := records[0];
      var starts' := starts[RecordType(r) := n];
      match Resolved(r, n, starts')
      case None => None
      case Some(first) =>
        match Resolve(records[1..], n + 1, starts')
        case None => None
        case Some(rest) => Some([first] + rest)
  }

  function Resolved(r: Record, n: nat, starts: map<string, nat>): Option<Record> {
    if !r.End? then Some(r)
    else if r.startRecordType !in starts || starts[r.startRecordType] > n then None
    else Some(r.(recordCount := Some(n - starts[r.startRecordType] + 1)))
  }

  /** A record object: the numbering writes into it. */
  class Line {
    var lineno: Option<nat>
    var record: Record

    constructor (record: Record)
      ensures this.record == record && lineno == None
    {
      this.record := record;
      lineno := None;
    }
  }

  function Records(lines: seq<Line>): seq<Record>
    reads lines
  {
    seq(|lines|, k requires 0 <= k < |lines| reads lines => lines[k].record)
  }

  predicate NoSharing(lines: seq<Line>) {
    forall i, j :: 0 <= i < j < |lines| ==> lines[i] != lines[j]
  }

  /** `resolve_line_numbers`; false when it raises. */
  method ResolveLineNumbers(lines: seq<Line>) returns (ok: bool)
    requires NoSharing(lines)
    modifies lines
    ensures ok == Resolve(old(Records(lines)), 1, map[]).Some?
    ensures ok ==> Records(lines) == Resolve(old(Records(lines)), 1, map[]).value
    ensures ok ==> forall k :: 0 <= k < |lines| ==> lines[k].lineno == Some(k + 1)
  {
    hide Resolve;
    var starts: map<string, nat> := map[];
    ghost var before := Records(lines);
    ghost var done: seq<Record> := [];
    ghost var whole := Resolve(before, 1, map[]);
    assert before[0..] == before;
    NothingDone(whole);
    for i := 0 to |lines|
      invariant |done| == i
      invariant forall k :: 0 <= k < i ==> lines[k].record == done[k] && lines[k].lineno == Some(k + 1)
      invariant forall k :: i <= k < |lines| ==> lines[k].record == before[k]
      invariant Then(done, Resolve(before[i..], i + 1, starts)) == whole
      invariant forall t :: t in starts ==> starts[t] <= i
    {
      assert before[i..][0] == before[i] && before[i..][1..] == before[i + 1..];
      ResolveOne(before[i..], i + 1, starts, done, whole);
      var line := lines[i];
      starts := starts[RecordType(line.record) := i + 1];
      line.lineno := Some(i + 1);
      if line.record.End? {
        if line.record.startRecordType !in starts {
          return false;
        }
        line.record := line.record.(recordCount := Some(i + 1 - starts[line.record.startRecordType] + 1));
      }
      done := done + [line.record];
    }
    AllDone(done, before[|lines|..], |lines| + 1, starts);
    assert Records(lines) == done;
    return true;
  }

  function Then(done: seq<Record>, rest: Option<seq<Record>>): Option<seq<Record>> {
    match rest
    case None => None
    case Some(records) => Some(done + records)
  }

  lemma NothingDone(whole: Option<seq<Record>>)
    ensures Then([], whole) == whole
  {
    if whole.Some? {
      assert [] + whole.value == whole.value;
    }
  }

  lemma AllDone(done: seq<Record>, rest: seq<Record>, n: nat, starts: map<string, nat>)
    requires rest == []
    ensures Then(done, Resolve(rest, n, starts)) == Some(done)
  {
    assert done + [] == done;
  }

  lemma ResolveOne(records: seq<Record>, n: nat, starts: map<string, nat>, done: seq<Record>, whole: Option<seq<Record>>)
    requires records != [] && Then(done, Resolve(records, n, starts)) == whole
    ensures var starts' := starts[RecordType(records[0]) := n];
            match Resolved(records[0], n, starts')
            case None => whole == None
            case Some(first) => Then(done + [first], Resolve(records[1..], n + 1, starts')) == whole
  {
    var starts' := starts[RecordType(records[0]) := n];
    var first := Resolved(records[0], n, starts');
    var rest := Resolve(records[1..], n + 1, starts');
    if first.Some? && rest.Some? {
      Assoc(done, [first.value], rest.value);
    }
  }

  function LinesFrom(records: seq<Record>, n: nat): seq<string> {
    if records == [] then [] else [FormatLine(n, records[0])] + LinesFrom(records[1..], n + 1)
  }

  /** `format_lines`; `None` when the numbering raises. */
  function FormatLines(records: seq<Record>): Option<string> {
    match Resolve(records, 1, map[])
    case None => None
    case Some(resolved) => Some(Join(LinesFrom(resolved, 1), LINE_SEP) + [LINE_SEP])
  }

  function LineNumber(line: Line): nat
    reads line
  {
    match line.lineno
    case None => 0
    case Some(n) => n
  }

  /** `format_lines`. */
  method PrintLines(lines: seq<Line>) returns (r: Option<string>)
    requires NoSharing(lines)
    modifies lines
    ensures r == FormatLines(old(Records(lines)))
  {
    var ok := ResolveLineNumbers(lines);
    if !ok {
      return None;
    }
    var formatted := seq(|lines|, k requires 0 <= k < |lines| reads lines => FormatLine(LineNumber(lines[k]), lines[k].record));
    LinesFromAt(Records(lines), 1);
    assert formatted == LinesFrom(Records(lines), 1);
    return Some(Join(formatted, LINE_SEP) + [LINE_SEP]);
  }

  lemma {:induction false} LinesFromAt(records: seq<Record>, n: nat)
    ensures |LinesFrom(records, n)| == |records|
    ensures forall k :: 0 <= k < |records| ==> LinesFrom(records, n)[k] == FormatLine(n + k, records[k])
  {
    hide FormatLine;
    if records != [] {
      LinesFromAt(records[1..], n + 1);
    }
  }

  lemma {:induction false} LinesFromAppend(a: seq<Record>, b: seq<Record>, n: nat)
    ensures LinesFrom(a + b, n) == LinesFrom(a, n) + LinesFrom(b, n + |a|)
  {
    hide FormatLine;
    if a == [] {
      assert a + b == b;
    } else {
      assert (a + b)[1..] == a[1..] + b;
      LinesFromAppend(a[1..], b, n + 1);
    }
  }

  /** `count_transactions`. */
  function CountTransactions(records: seq<Record>): nat {
    if records == [] then 0 else (if records[0].Licence? then 1 else 0) + CountTransactions(records[1..])
  }

  lemma {:induction false} CountTransactionsAppend(a: seq<Record>, b: seq<Record>)
    ensures CountTransactions(a + b) == CountTransactions(a) + CountTransactions(b)
  {
    if a == [] {
      assert a + b == b;
    } else {
      assert (a + b)[1..] == a[1..] + b;
      CountTransactionsAppend(a[1..], b);
    }
  }

  // ---------------------------------------------------------------- what numbering does to any records

  /** The line number of the latest record of a type up to the `k`-th, the first of them having number `n`. */
  function LatestStart(records: seq<Record>, recordType: string, k: nat, n: nat, starts: map<string, nat>): Option<nat>
    requires k < |records|
  {
    if RecordType(records[k]) == recordType then Some(n + k)
    else if k > 0 then LatestStart(records, recordType, k - 1, n, starts)
    else if recordType in starts then Some(starts[recordType])
    else None
  }

  lemma {:induction false} LatestStartLater(records: seq<Record>, recordType: string, k: nat, n: nat, starts: map<string, nat>)
    requires k + 1 < |records|
    ensures LatestStart(records, recordType, k + 1, n, starts) ==
            LatestStart(records[1..], recordType, k, n + 1, starts[RecordType(records[0]) := n])
  {
    hide RecordType;
    if k > 0 {
      LatestStartLater(records, recordType, k - 1, n, starts);
    } else if RecordType(records[1]) != recordType {
      assert LatestStart(records, recordType, 1, n, starts) == LatestStart(records, recordType, 0, n, starts);
    }
  }

  /** The `k`-th record after numbering; `None` when its start is missing. */
  function Counted(records: seq<Record>, k: nat, n: nat, starts: map<string, nat>): Option<Record>
    requires k < |records| && forall t :: t in starts ==> starts[t] < n
  {
    var r := records[k];
    if !r.End? then Some(r)
    else
      match LatestStart(records, r.startRecordType, k, n, starts)
      case None => None
      case Some(start) => if start > n + k then None else Some(r.(recordCount := Some(n + k - start + 1)))
  }

  lemma {:induction false} ResolveCounts(records: seq<Record>, n: nat, starts: map<string, nat>)
    requires forall t :: t in starts ==> starts[t] < n
    ensures Resolve(records, n, starts).Some? <==> forall k :: 0 <= k < |records| ==> Counted(records, k, n, starts).Some?
    ensures Resolve(records, n, starts).Some? ==>
              && |Resolve(records, n, starts).value| == |records|
              && forall k :: 0 <= k < |records| ==> Counted(records, k, n, starts) == Some(Resolve(records, n, starts).value[k])
    decreases |records|
  {
    hide RecordType;
    if records != [] {
      var later := starts[RecordType(records[0]) := n];
      ResolveCounts(records[1..], n + 1, later);
      var rest := records[1..];
      forall k | 0 < k < |records|
        ensures Counted(records, k, n, starts) == Counted(rest, k - 1, n + 1, later)
      {
        assert rest[k - 1] == records[k];
        if records[k].End? {
          LatestStartLater(records, records[k].startRecordType, k - 1, n, starts);
        }
      }
      assert Counted(records, 0, n, starts) == Resolved(records[0], n, later);
      hide Counted, Resolved;
      if forall k :: 0 <= k < |records| ==> Counted(records, k, n, starts).Some? {
        var m := n + 1;
        forall k | 0 <= k < |rest|
          ensures Counted(rest, k, m, later).Some?
        {
          assert Counted(records, k + 1, n, starts).Some?;
        }
      }
    }
  }

  /** The `j`-th record is the latest of a type up to the `k`-th. */
  predicate IsLatest(records: seq<Record>, recordType: string, j: nat, k: nat) {
    j <= k < |records| && RecordType(records[j]) == recordType
    && forall i :: j < i <= k ==> RecordType(records[i]) != recordType
  }

  lemma {:induction false} LatestStartIs(records: seq<Record>, recordType: string, k: nat)
    requires k < |records|
    ensures match LatestStart(records, recordType, k, 1, map[])
            case None => forall j :: 0 <= j <= k ==> RecordType(records[j]) != recordType
            case Some(start) => 1 <= start <= k + 1 && IsLatest(records, recordType, start - 1, k)
  {
    hide RecordType;
    if RecordType(records[k]) != recordType && k > 0 {
      LatestStartIs(records, recordType, k - 1);
    }
  }

  lemma CountedEnd(records: seq<Record>, k: nat)
    requires k < |records| && records[k].End?
    ensures Counted(records, k, 1, map[]).None? <==> forall j :: 0 <= j <= k ==> RecordType(records[j]) != records[k].startRecordType
    ensures forall j :: 0 <= j <= k && IsLatest(records, records[k].startRecordType, j, k) ==>
              Counted(records, k, 1, map[]) == Some(records[k].(recordCount := Some(k - j + 1)))
  {
    hide RecordType;
    LatestStartIs(records, records[k].startRecordType, k);
    hide LatestStart;
  }

  /**
   For every list of records: numbering raises exactly when some `end` record has no record of its start
   type before it; else it changes nothing but the counts of the `end` records, each of which becomes the
   number of records from the latest of its start type to itself.
   */
  lemma EndsCountFromTheirStarts(records: seq<Record>)
    ensures Resolve(records, 1, map[]).None? <==>
            exists k :: 0 <= k < |records| && records[k].End? && NoStart(records, k)
    ensures Resolve(records, 1, map[]).Some? ==>
              var r := Resolve(records, 1, map[]).value;
              && |r| == |records|
              && (forall k :: 0 <= k < |records| && !records[k].End? ==> r[k] == records[k])
              && (forall j, k :: 0 <= j <= k < |records| && records[k].End? && IsLatest(records, records[k].startRecordType, j, k) ==>
                    r[k] == records[k].(recordCount := Some(k - j + 1)))
  {
    ResolveCounts(records, 1, map[]);
    assert forall k :: 0 <= k < |records| && !records[k].End? ==> Counted(records, k, 1, map[]) == Some(records[k]);
    hide Resolve, RecordType, Counted, IsLatest;
    forall k | 0 <= k < |records| && records[k].End?
      ensures Counted(records, k, 1, map[]).None? <==> NoStart(records, k)
      ensures forall j :: 0 <= j <= k && IsLatest(records, records[k].startRecordType, j, k) ==>
                Counted(records, k, 1, map[]) == Some(records[k].(recordCount := Some(k - j + 1)))
    {
      CountedEnd(records, k);
    }
    hide NoStart;
  }

  /** No record up to the `k`-th has the type the `k`-th, an `end`, closes. */
  predicate NoStart(records: seq<Record>, k: nat)
    requires k < |records| && records[k].End?
  {
    forall j :: 0 <= j <= k ==> RecordType(records[j]) != records[k].startRecordType
  }

  // ---------------------------------------------------------------- licence blocks

  /** A licence header, its details, and the `end` record that closes it. */
  predicate IsBlock(b: seq<Record>) {
    && |b| >= 2
    && b[0].Licence?
    && b[|b| - 1] == End(LICENCE, None)
    && forall k :: 0 < k < |b| - 1 ==> IsDetail(b[k])
  }

  predicate IsDetail(r: Record) {
    !r.Licence? && !r.End? && !r.FileHeader? && !r.FileTrailer?
  }

  predicate AreBlocks(blocks: seq<seq<Record>>) {
    forall k :: 0 <= k < |blocks| ==> IsBlock(blocks[k])
  }

  function Concat(blocks: seq<seq<Record>>): seq<Record> {
    if blocks == [] then [] else blocks[0] + Concat(blocks[1..])
  }

  lemma {:induction false} ConcatAppend(a: seq<seq<Record>>, b: seq<seq<Record>>)
    ensures Concat(a + b) == Concat(a) + Concat(b)
  {
    if a == [] {
      assert a + b == b;
    } else {
      assert (a + b)[1..] == a[1..] + b;
      ConcatAppend(a[1..], b);
    }
  }

  /** The block with its own size on its `end` record. */
  function Sized(b: seq<Record>): seq<Record>
    requires |b| >= 1
  {
    b[..|b| - 1] + [End(LICENCE, Some(|b|))]
  }

  function SizedBlocks(blocks: seq<seq<Record>>): seq<seq<Record>>
    requires AreBlocks(blocks)
  {
    if blocks == [] then [] else [Sized(blocks[0])] + SizedBlocks(blocks[1..])
  }

  /** The starts known after some records numbered from `n`. */
  function StartsAfter(records: seq<Record>, n: nat, starts: map<string, nat>): map<string, nat> {
    if records == [] then starts else StartsAfter(records[1..], n + 1, starts[RecordType(records[0]) := n])
  }

  lemma {:induction false} ResolveAppend(a: seq<Record>, b: seq<Record>, n: nat, starts: map<string, nat>)
    ensures Resolve(a + b, n, starts) ==
            match (Resolve(a, n, starts), Resolve(b, n + |a|, StartsAfter(a, n, starts)))
            case (Some(x), Some(y)) => Some(x + y)
            case _ => None
  {
    if a == [] {
      assert a + b == b;
      if Resolve(b, n, starts).Some? {
        assert [] + Resolve(b, n, starts).value == Resolve(b, n, starts).value;
      }
    } else {
      assert (a + b)[1..] == a[1..] + b;
      ResolveAppend(a[1..], b, n + 1, starts[RecordType(a[0]) := n]);
      var first := Resolved(a[0], n, starts[RecordType(a[0]) := n]);
      var x := Resolve(a[1..], n + 1, starts[RecordType(a[0]) := n]);
      var y := Resolve(b, n + |a|, StartsAfter(a, n, starts));
      if first.Some? && x.Some? && y.Some? {
        Assoc([first.value], x.value, y.value);
      }
    }
  }

  lemma {:induction false} ResolveDetails(details: seq<Record>, n: nat, starts: map<string, nat>)
    requires forall k :: 0 <= k < |details| ==> IsDetail(details[k])
    requires LICENCE in starts
    ensures Resolve(details, n, starts) == Some(details)
    ensures var after := StartsAfter(details, n, starts); LICENCE in after && after[LICENCE] == starts[LICENCE]
  {
    if details != [] {
      DetailType(details[0]);
      ResolveDetails(details[1..], n + 1, starts[RecordType(details[0]) := n]);
      assert [details[0]] + details[1..] == details;
    }
  }

  lemma DetailType(r: Record)
    requires IsDetail(r)
    ensures RecordType(r) != LICENCE
  {
  }

  lemma ResolveHead(head: Record, rest: seq<Record>, n: nat, starts: map<string, nat>)
    requires head.Licence?
    ensures Resolve([head] + rest, n, starts) == Then([head], Resolve(rest, n + 1, starts[LICENCE := n]))
  {
    assert ([head] + rest)[1..] == rest;
    assert RecordType(head) == LICENCE;
  }

  lemma BlockParts(b: seq<Record>) returns (details: seq<Record>)
    requires IsBlock(b)
    ensures b == [b[0]] + (details + [End(LICENCE, None)]) && b[0].Licence?
    ensures Sized(b) == [b[0]] + (details + [End(LICENCE, Some(|b|))])
    ensures forall k :: 0 <= k < |details| ==> IsDetail(details[k])
    ensures |b| == |details| + 2
  {
    details := b[1..|b| - 1];
  }

  /** Numbering a block writes the block's own size on its `end` record, whatever came before it. */
  lemma ResolveBlock(b: seq<Record>, n: nat, starts: map<string, nat>)
    requires IsBlock(b)
    ensures Resolve(b, n, starts) == Some(Sized(b))
  {
    hide Resolve, RecordType, IsDetail;
    var details := BlockParts(b);
    var started := starts[LICENCE := n];
    ResolveDetails(details, n + 1, started);
    ResolveAppend(details, [End(LICENCE, None)], n + 1, started);
    ResolveEnd(n + 1 + |details|, n, StartsAfter(details, n + 1, started));
    ResolveHead(b[0], details + [End(LICENCE, None)], n, starts);
  }

  lemma ResolveEnd(n: nat, start: nat, starts: map<string, nat>)
    requires LICENCE in starts && starts[LICENCE] == start && start <= n
    ensures Resolve([End(LICENCE, None)], n, starts) == Some([End(LICENCE, Some(n - start + 1))])
  {
    var end := End(LICENCE, None);
    assert [end][1..] == [];
    assert RecordType(end) != LICENCE;
    var sized := End(LICENCE, Some(n - start + 1));
    assert Resolved(end, n, starts[RecordType(end) := n]) == Some(sized);
    assert Resolve([], n + 1, starts[RecordType(end) := n]) == Some([]);
    assert [sized] + [] == [sized];
  }

  lemma ResolveNothing(n: nat, starts: map<string, nat>)
    ensures Resolve([], n, starts) == Some([])
  {
  }

  lemma {:induction false} ResolveBlocks(blocks: seq<seq<Record>>, n: nat, starts: map<string, nat>)
    requires AreBlocks(blocks)
    ensures Resolve(Concat(blocks), n, starts) == Some(Concat(SizedBlocks(blocks)))
  {
    hide Resolve, Sized, StartsAfter;
    if blocks == [] {
      ResolveNothing(n, starts);
    } else {
      var b := blocks[0];
      ResolveBlock(b, n, starts);
      ResolveBlocks(blocks[1..], n + |b|, StartsAfter(b, n, starts));
      ResolveAppend(b, Concat(blocks[1..]), n, starts);
      assert SizedBlocks(blocks)[1..] == SizedBlocks(blocks[1..]);
    }
  }

  lemma {:induction false} CountBlocks(blocks: seq<seq<Record>>)
    requires AreBlocks(blocks)
    ensures CountTransactions(Concat(blocks)) == |blocks|
  {
    if blocks != [] {
      var b := blocks[0];
      CountDetails(b[1..]);
      CountTransactionsAppend(b, Concat(blocks[1..]));
      CountBlocks(blocks[1..]);
    }
  }

  lemma {:induction false} CountDetails(records: seq<Record>)
    requires forall k :: 0 <= k < |records| ==> !records[k].Licence?
    ensures CountTransactions(records) == 0
  {
    if records != [] {
      CountDetails(records[1..]);
    }
  }

  /** The sum of the counts on the `end` records. */
  function TotalSize(blocks: seq<seq<Record>>): nat {
    if blocks == [] then 0 else |blocks[0]| + TotalSize(blocks[1..])
  }

  lemma {:induction false} TotalSizeIsLength(blocks: seq<seq<Record>>)
    ensures |Concat(blocks)| == TotalSize(blocks)
  {
    if blocks != [] {
      TotalSizeIsLength(blocks[1..]);
    }
  }

  /** A licence file before numbering: header, licence blocks, and a trailer counting the licence records. */
  function FileRecords(header: Record, blocks: seq<seq<Record>>): seq<Record> {
    [header] + Concat(blocks) + [FileTrailer(CountTransactions([header] + Concat(blocks)))]
  }

  /**
   Every file of licence blocks, numbered: each `end` record carries the size of its own block,
   header and trailer add the remaining two records, and the trailer counts the blocks.
   */
  lemma NumberedFile(header: Record, blocks: seq<seq<Record>>)
    requires header.FileHeader? && AreBlocks(blocks)
    ensures Resolve(FileRecords(header, blocks), 1, map[]) ==
            Some([header] + Concat(SizedBlocks(blocks)) + [FileTrailer(|blocks|)])
    ensures |FileRecords(header, blocks)| == 1 + TotalSize(blocks) + 1
  {
    var trailer := FileTrailer(|blocks|);
    CountBlocks(blocks);
    CountTransactionsAppend([header], Concat(blocks));
    assert [header][1..] == [];
    assert CountTransactions([header]) == 0;
    TotalSizeIsLength(blocks);
    var starts := StartsAfter([header], 1, map[]);
    ResolvePlain(header, 1, map[]);
    ResolveBlocks(blocks, 2, starts);
    ResolveAppend([header], Concat(blocks), 1, map[]);
    var n := |[header] + Concat(blocks)| + 1;
    ResolvePlain(trailer, n, StartsAfter([header] + Concat(blocks), 1, map[]));
    ResolveAppend([header] + Concat(blocks), [trailer], 1, map[]);
  }

  lemma ResolvePlain(r: Record, n: nat, starts: map<string, nat>)
    requires !r.End?
    ensures Resolve([r], n, starts) == Some([r])
  {
    assert [r][1..] == [];
    assert Resolve([], n + 1, starts[RecordType(r) := n]) == Some([]);
    assert [r] + [] == [r];
  }
}
