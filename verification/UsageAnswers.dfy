/**
 Which transactions the merged usage reply answers, line by line: what LITE said of a licence stands
 under the transaction of that licence's own block in the usage file.
 */
module UsageAnswers {
  import opened Text
  import opened UsageSplit
  import opened UsageFiles
  import opened UsagePartition
  import opened UsageReply
  import opened UsageReplyFacts

  // ---------------------------------------------------------------- what LITE's answer refers to

  /** The rows that an accepted licence's lookups find: its licence, its first good, and the good's transaction. */
  predicate KnownAccepted(a: AcceptedLicence, t: Mappings) {
    a.id in t.references
    && (if a.goods == [] then (t.references[a.id], None) in t.transactions
        else (t.references[a.id], a.goods[0]) in t.goodLines
             && (t.references[a.id], Some(t.goodLines[(t.references[a.id], a.goods[0])])) in t.transactions)
  }

  function AcceptedUnder(a: AcceptedLicence, t: Mappings): string
    requires KnownAccepted(a, t)
  {
    var reference := t.references[a.id];
    if a.goods == [] then t.transactions[(reference, None)]
    else t.transactions[(reference, Some(t.goodLines[(reference, a.goods[0])]))]
  }

  predicate KnownRejected(r: RejectedLicence, t: Mappings)
    requires r.rejectedGoods != []
  {
    && r.id in t.references
    && (t.references[r.id], r.rejectedGoods[0].id) in t.goodLines
    && (t.references[r.id], Some(t.goodLines[(t.references[r.id], r.rejectedGoods[0].id)])) in t.transactions
  }

  /** The line number of a rejected licence's first rejected good. */
  function RejectedLine(r: RejectedLicence, t: Mappings): nat
    requires r.rejectedGoods != [] && KnownRejected(r, t)
  {
    t.goodLines[(t.references[r.id], r.rejectedGoods[0].id)]
  }

  function RejectedUnder(r: RejectedLicence, t: Mappings): string
    requires r.rejectedGoods != [] && KnownRejected(r, t)
  {
    t.transactions[(t.references[r.id], Some(RejectedLine(r, t)))]
  }

  predicate AllKnown(response: LiteResponse, t: Mappings) {
    && (forall q :: 0 <= q < |response.accepted| ==> KnownAccepted(response.accepted[q], t))
    && (forall q :: 0 <= q < |response.rejected| && response.rejected[q].rejectedGoods != [] ==>
          KnownRejected(response.rejected[q], t))
  }

  /** The rejected good is the `k`-th detail of the `i`-th block of the usage file, and what follows the file does not name it. */
  predicate IsAt(f: UsageFile, rest: seq<string>, r: RejectedLicence, t: Mappings, i: nat, k: nat)
    requires WellFormed(f) && r.rejectedGoods != [] && KnownRejected(r, t)
  {
    && Findable(f, i, k, RejectedLine(r, t)) && Transaction(f.blocks[i]) == RejectedUnder(r, t)
    && Skipped(rest, RejectedUnder(r, t))
  }

  ghost predicate EachIsSomewhere(f: UsageFile, rest: seq<string>, rejected: seq<RejectedLicence>, t: Mappings)
    requires WellFormed(f)
  {
    forall q :: 0 <= q < |rejected| && rejected[q].rejectedGoods != [] && KnownRejected(rejected[q], t) ==>
      exists i: nat, k: nat :: IsAt(f, rest, rejected[q], t, i, k)
  }

  /** The texts that are printed hold no separator. */
  predicate SeparatorFreeTexts(response: LiteResponse, t: Mappings) {
    && (forall key :: key in t.transactions ==> Free(t.transactions[key], FIELD_SEP) && Free(t.transactions[key], LINE_SEP))
    && (forall q :: 0 <= q < |response.rejected| && response.rejected[q].rejectedGoods != [] ==>
          Free(response.rejected[q].rejectedGoods[0].error, FIELD_SEP) && Free(response.rejected[q].rejectedGoods[0].error, LINE_SEP))
  }

  /** How many of the licences are rejected with a good; the others are skipped. */
  function Rejections(rejected: seq<RejectedLicence>): nat {
    if rejected == [] then 0 else (if rejected[0].rejectedGoods != [] then 1 else 0) + Rejections(rejected[1..])
  }

  // ---------------------------------------------------------------- LITE's records

  lemma AcceptedTransactionIs(a: AcceptedLicence, t: Mappings)
    ensures AcceptedTransaction(a, t) == if KnownAccepted(a, t) then Some(AcceptedUnder(a, t)) else None
  {
  }

  lemma RejectionIs(r: RejectedLicence, t: Mappings)
    requires r.rejectedGoods != []
    ensures RejectionOf(r, t) ==
            if KnownRejected(r, t) then Some(Rejection(RejectedUnder(r, t), RejectedLine(r, t), r.rejectedGoods[0].error)) else None
  {
  }

  lemma {:induction false} AcceptedAre(licences: seq<AcceptedLicence>, t: Mappings)
    ensures LiteAccepted(licences, t).Some? <==> forall q :: 0 <= q < |licences| ==> KnownAccepted(licences[q], t)
    ensures LiteAccepted(licences, t).Some? ==>
              && |LiteAccepted(licences, t).value| == |licences|
              && forall q :: 0 <= q < |licences| ==> LiteAccepted(licences, t).value[q] == ["accepted", AcceptedUnder(licences[q], t)]
  {
    hide AcceptedTransaction, KnownAccepted, AcceptedUnder;
    if licences != [] {
      AcceptedAre(licences[1..], t);
      AcceptedTransactionIs(licences[0], t);
    }
  }

  /** The records of one rejection, the first of them numbered `n`. */
  predicate Reports(records: seq<Fields>, under: string, error: string, position: string, n: nat) {
    && |records| == 3
    && records[0] == ["rejected", under]
    && records[1] == ["error", Decimal(n + 1), error + " in line " + position]
    && records[2] == ["end", "rejected", Decimal(3)]
  }

  lemma OneRejectionIs(r: RejectedLicence, t: Mappings, lines: seq<string>, n: nat, position: string)
    requires r.rejectedGoods != [] && KnownRejected(r, t)
    requires ScanFrom(lines, 0, false, "", RejectedUnder(r, t), RejectedLine(r, t)) == Some(position)
    ensures LiteRejection(r, t, lines, n).Some?
    ensures Reports(LiteRejection(r, t, lines, n).value, RejectedUnder(r, t), r.rejectedGoods[0].error, position, n)
  {
    hide ScanFrom, KnownRejected, RejectedUnder, RejectedLine, RejectionOf;
    RejectionIs(r, t);
    assert n + 2 - (n - 1) == 3;
  }

  /** All three records, or none for a licence without rejected goods. */
  lemma RejectionSize(r: RejectedLicence, t: Mappings, lines: seq<string>, n: nat)
    requires LiteRejection(r, t, lines, n).Some?
    ensures |LiteRejection(r, t, lines, n).value| == if r.rejectedGoods != [] then 3 else 0
    ensures r.rejectedGoods != [] ==> KnownRejected(r, t)
  {
    hide ScanFrom, KnownRejected, RejectionOf;
    if r.rejectedGoods != [] { RejectionIs(r, t); }
  }

  lemma RejectedFirst(licences: seq<RejectedLicence>, t: Mappings, lines: seq<string>, n: nat)
    requires licences != [] && LiteRejected(licences, t, lines, n).Some?
    ensures LiteRejection(licences[0], t, lines, n).Some?
    ensures var first := LiteRejection(licences[0], t, lines, n).value;
            && LiteRejected(licences[1..], t, lines, n + |first|).Some?
            && LiteRejected(licences, t, lines, n).value == first + LiteRejected(licences[1..], t, lines, n + |first|).value
  {
    hide LiteRejection;
  }

  lemma {:induction false} RejectedAt(licences: seq<RejectedLicence>, t: Mappings, lines: seq<string>, n: nat, q: nat, position: string)
    requires LiteRejected(licences, t, lines, n).Some?
    requires q < |licences| && licences[q].rejectedGoods != [] && KnownRejected(licences[q], t)
    requires ScanFrom(lines, 0, false, "", RejectedUnder(licences[q], t), RejectedLine(licences[q], t)) == Some(position)
    ensures var records := LiteRejected(licences, t, lines, n).value;
            var at := 3 * Rejections(licences[..q]);
            && at + 3 <= |records|
            && Reports(records[at..at + 3], RejectedUnder(licences[q], t), licences[q].rejectedGoods[0].error, position, n + at)
    decreases q
  {
    hide ScanFrom, LiteRejection, KnownRejected, RejectedUnder, RejectedLine, Reports, LiteRejected;
    RejectedFirst(licences, t, lines, n);
    var first := LiteRejection(licences[0], t, lines, n).value;
    RejectionSize(licences[0], t, lines, n);
    if q == 0 {
      OneRejectionIs(licences[0], t, lines, n, position);
      assert licences[..0] == [];
      assert (first + LiteRejected(licences[1..], t, lines, n + |first|).value)[0..3] == first;
    } else {
      assert licences[..q][0] == licences[0] && licences[..q][1..] == licences[1..][..q - 1];
      RejectedAt(licences[1..], t, lines, n + |first|, q - 1, position);
      var at := 3 * Rejections(licences[1..][..q - 1]);
      var rest := LiteRejected(licences[1..], t, lines, n + |first|).value;
      assert (first + rest)[|first| + at..|first| + at + 3] == rest[at..at + 3];
    }
  }

  lemma {:induction false} RejectedKnown(licences: seq<RejectedLicence>, t: Mappings, lines: seq<string>, n: nat, q: nat)
    requires LiteRejected(licences, t, lines, n).Some? && q < |licences| && licences[q].rejectedGoods != []
    ensures KnownRejected(licences[q], t)
    decreases q
  {
    hide LiteRejection, KnownRejected;
    RejectedFirst(licences, t, lines, n);
    RejectionSize(licences[0], t, lines, n);
    if q > 0 {
      RejectedKnown(licences[1..], t, lines, n + |LiteRejection(licences[0], t, lines, n).value|, q - 1);
    }
  }

  ghost predicate Scanned(r: RejectedLicence, t: Mappings, lines: seq<string>) {
    r.rejectedGoods != [] ==>
      KnownRejected(r, t) && ScanFrom(lines, 0, false, "", RejectedUnder(r, t), RejectedLine(r, t)).Some?
  }

  lemma {:induction false} RejectedSucceeds(licences: seq<RejectedLicence>, t: Mappings, lines: seq<string>, n: nat)
    requires forall q :: 0 <= q < |licences| ==> Scanned(licences[q], t, lines)
    ensures LiteRejected(licences, t, lines, n).Some?
  {
    if licences != [] {
      var r := licences[0];
      assert Scanned(r, t, lines);
      if r.rejectedGoods != [] {
        OneRejectionIs(r, t, lines, n, ScanFrom(lines, 0, false, "", RejectedUnder(r, t), RejectedLine(r, t)).value);
      }
      hide Scanned, LiteRejection;
      assert forall q :: 0 <= q < |licences[1..]| ==> licences[1..][q] == licences[q + 1];
      RejectedSucceeds(licences[1..], t, lines, n + |LiteRejection(r, t, lines, n).value|);
    }
  }

  // ---------------------------------------------------------------- when there is a merged reply

  lemma PositionFound(f: UsageFile, pad: string, rest: seq<string>, r: RejectedLicence, t: Mappings, i: nat, k: nat)
    requires WellFormed(f) && PadOk(pad) && AllFree(rest, LINE_SEP)
    requires r.rejectedGoods != [] && KnownRejected(r, t) && IsAt(f, rest, r, t, i, k)
    ensures i < |f.blocks|
    ensures ScanFrom(Split(FileText(f, pad, rest), LINE_SEP), 0, false, "", RejectedUnder(r, t), RejectedLine(r, t)) ==
            Some(Decimal(PositionOf(f, i, k)))
  {
    hide ScanFrom, FileText, Split, KnownRejected, WellFormed, RejectedUnder, RejectedLine, Skipped, PositionOf, Findable;
    FindableMeans(f, i, k, RejectedLine(r, t));
    ErrorNamesOwnLine(f, pad, rest, i, k, RejectedLine(r, t));
  }

  lemma AllScanned(f: UsageFile, pad: string, rest: seq<string>, rejected: seq<RejectedLicence>, t: Mappings)
    requires WellFormed(f) && PadOk(pad) && AllFree(rest, LINE_SEP) && EachIsSomewhere(f, rest, rejected, t)
    requires forall q :: 0 <= q < |rejected| && rejected[q].rejectedGoods != [] ==> KnownRejected(rejected[q], t)
    ensures forall q :: 0 <= q < |rejected| ==> Scanned(rejected[q], t, Split(FileText(f, pad, rest), LINE_SEP))
  {
    hide ScanFrom, FileText, Split, KnownRejected, WellFormed, RejectedUnder, RejectedLine, IsAt;
    forall q | 0 <= q < |rejected|
      ensures Scanned(rejected[q], t, Split(FileText(f, pad, rest), LINE_SEP))
    {
      if rejected[q].rejectedGoods != [] {
        var i: nat, k: nat :| IsAt(f, rest, rejected[q], t, i, k);
        PositionFound(f, pad, rest, rejected[q], t, i, k);
      }
    }
  }

  lemma LiteRecordsParts(response: LiteResponse, t: Mappings, lines: seq<string>, n: nat)
    ensures LiteRecords(Some(response), t, lines, n).Some? <==>
            LiteAccepted(response.accepted, t).Some?
            && LiteRejected(response.rejected, t, lines, n + |LiteAccepted(response.accepted, t).value|).Some?
    ensures LiteRecords(Some(response), t, lines, n).Some? ==>
              LiteRecords(Some(response), t, lines, n).value ==
              LiteAccepted(response.accepted, t).value
              + LiteRejected(response.rejected, t, lines, n + |LiteAccepted(response.accepted, t).value|).value
  {
    hide LiteAccepted, LiteRejected;
  }

  lemma MergedWhenRecords(ediData: string, spire: Option<string>, response: Option<LiteResponse>, t: Mappings, timeStamp: string)
    ensures Merged(ediData, spire, response, t, timeStamp).Some? <==>
            LiteRecords(response, t, Split(ediData, LINE_SEP), FirstNumber(spire)).Some?
  {
    hide LiteRecords, FirstNumber, Split;
  }

  /**
   The replies to a usage file can be merged exactly when each licence that LITE accepted, and each it
   rejected with a good, is found in the mapping tables; provided a rejected good's transaction
   stands in the file, so that the scan for its line does not fail.
   */
  lemma MergedExactlyWhenKnown(f: UsageFile, pad: string, rest: seq<string>, spire: Option<string>, response: LiteResponse,
                               t: Mappings, timeStamp: string)
    requires WellFormed(f) && PadOk(pad) && AllFree(rest, LINE_SEP) && EachIsSomewhere(f, rest, response.rejected, t)
    ensures Merged(FileText(f, pad, rest), spire, Some(response), t, timeStamp).Some? <==> AllKnown(response, t)
  {
    var lines := Split(FileText(f, pad, rest), LINE_SEP);
    var n := FirstNumber(spire);
    hide FirstNumber, Split, FileText, WellFormed, EachIsSomewhere, KnownAccepted, KnownRejected, Scanned, Merged, LiteRecords, AcceptedUnder, LiteRejected;
    MergedWhenRecords(FileText(f, pad, rest), spire, Some(response), t, timeStamp);
    LiteRecordsParts(response, t, lines, n);
    AcceptedAre(response.accepted, t);
    hide LiteAccepted;
    if LiteAccepted(response.accepted, t).Some? {
      var m := n + |LiteAccepted(response.accepted, t).value|;
      if LiteRejected(response.rejected, t, lines, m).Some? {
        forall q | 0 <= q < |response.rejected| && response.rejected[q].rejectedGoods != []
          ensures KnownRejected(response.rejected[q], t)
        {
          RejectedKnown(response.rejected, t, lines, m, q);
        }
      }
      if AllKnown(response, t) {
        AllScanned(f, pad, rest, response.rejected, t);
        RejectedSucceeds(response.rejected, t, lines, m);
      }
    }
  }

  // ---------------------------------------------------------------- the lines of the merged reply

  lemma FreeNumber(n: nat)
    ensures Free(Decimal(n), FIELD_SEP) && Free(Decimal(n), LINE_SEP)
  {
    DecimalRoundTrip(n);
  }

  lemma {:induction false} PositionIsFree(lines: seq<string>, j: nat, inside: bool, found: string, transaction: string, number: nat)
    requires Free(found, FIELD_SEP) && Free(found, LINE_SEP) && ScanFrom(lines, j, inside, found, transaction, number).Some?
    ensures var position := ScanFrom(lines, j, inside, found, transaction, number).value;
            Free(position, FIELD_SEP) && Free(position, LINE_SEP)
  {
    hide Contains, Decimal;
    if lines != [] {
      FreeNumber(j + 1);
      var now := Inside(lines[0], transaction, inside);
      var next := if Contains(lines[0], LINE) && now && Split(lines[0], FIELD_SEP)[2] == Decimal(number) then Decimal(j + 1) else found;
      PositionIsFree(lines[1..], j + 1, now, next, transaction, number);
    }
  }

  lemma ReportsAreFree(records: seq<Fields>, under: string, error: string, position: string, n: nat)
    requires Reports(records, under, error, position, n)
    requires Free(under, FIELD_SEP) && Free(under, LINE_SEP) && Free(error, FIELD_SEP) && Free(error, LINE_SEP)
    requires Free(position, FIELD_SEP) && Free(position, LINE_SEP)
    ensures AllSeparatorFree(records)
  {
    FreeNumber(n + 1);
    FreeNumber(3);
    hide Decimal;
  }

  lemma {:induction false} RejectedAreFree(licences: seq<RejectedLicence>, t: Mappings, lines: seq<string>, n: nat)
    requires LiteRejected(licences, t, lines, n).Some? && SeparatorFreeTexts(LiteResponse([], licences), t)
    ensures AllSeparatorFree(LiteRejected(licences, t, lines, n).value)
    decreases |licences|
  {
    if licences != [] {
      RejectedFirst(licences, t, lines, n);
      RejectionSize(licences[0], t, lines, n);
      var r := licences[0];
      var first := LiteRejection(r, t, lines, n).value;
      assert forall q :: 0 <= q < |licences[1..]| ==> licences[1..][q] == licences[q + 1];
      assert SeparatorFreeTexts(LiteResponse([], licences[1..]), t);
      if r.rejectedGoods != [] {
        var position := ScannedPosition(r, t, lines, n);
        assert Free(r.rejectedGoods[0].error, FIELD_SEP) && Free(r.rejectedGoods[0].error, LINE_SEP);
        ReportsAreFree(first, RejectedUnder(r, t), r.rejectedGoods[0].error, position, n);
      }
      hide LiteRejected, LiteRejection, SeparatorFree, SeparatorFreeTexts;
      RejectedAreFree(licences[1..], t, lines, n + |first|);
    }
  }

  lemma ScannedPosition(r: RejectedLicence, t: Mappings, lines: seq<string>, n: nat) returns (position: string)
    requires r.rejectedGoods != [] && LiteRejection(r, t, lines, n).Some? && KnownRejected(r, t)
    ensures Free(position, FIELD_SEP) && Free(position, LINE_SEP)
    ensures Reports(LiteRejection(r, t, lines, n).value, RejectedUnder(r, t), r.rejectedGoods[0].error, position, n)
  {
    RejectionIs(r, t);
    var found := ScanFrom(lines, 0, false, "", RejectedUnder(r, t), RejectedLine(r, t));
    assert found.Some?;
    position := found.value;
    OneRejectionIs(r, t, lines, n, position);
    hide ScanFrom;
    PositionIsFree(lines, 0, false, "", RejectedUnder(r, t), RejectedLine(r, t));
  }

  lemma LiteIsFree(response: LiteResponse, t: Mappings, lines: seq<string>, n: nat)
    requires LiteRecords(Some(response), t, lines, n).Some? && SeparatorFreeTexts(response, t)
    ensures AllSeparatorFree(LiteRecords(Some(response), t, lines, n).value)
  {
    LiteRecordsParts(response, t, lines, n);
    AcceptedAre(response.accepted, t);
    hide LiteAccepted, LiteRejected, LiteRecords;
    var m := n + |LiteAccepted(response.accepted, t).value|;
    assert SeparatorFreeTexts(LiteResponse([], response.rejected), t);
    RejectedAreFree(response.rejected, t, lines, m);
    forall q | 0 <= q < |response.accepted|
      ensures SeparatorFree(LiteAccepted(response.accepted, t).value[q])
    {
      assert KnownAccepted(response.accepted[q], t);
    }
  }

  /** The columns of the line that a record of LITE's is printed on. */
  lemma LineOfRecord(ediData: string, spire: Option<string>, response: LiteResponse, t: Mappings, timeStamp: string, a: nat)
    requires LiteRecords(Some(response), t, Split(ediData, LINE_SEP), FirstNumber(spire)).Some?
    requires a < |LiteRecords(Some(response), t, Split(ediData, LINE_SEP), FirstNumber(spire)).value|
    requires SeparatorFreeTexts(response, t) && Free(timeStamp, LINE_SEP)
    ensures var merged := Merged(ediData, spire, Some(response), t, timeStamp);
            && merged.Some?
            && var lines := Split(merged.value, LINE_SEP);
               var at := |FirstLines(spire, timeStamp)| + a;
               && at < |lines|
               && Split(lines[at], FIELD_SEP) ==
                  [Decimal(FirstNumber(spire) + a)] + LiteRecords(Some(response), t, Split(ediData, LINE_SEP), FirstNumber(spire)).value[a]
  {
    hide *;
    var n := FirstNumber(spire);
    var lite := LiteRecords(Some(response), t, Split(ediData, LINE_SEP), n).value;
    LiteIsFree(response, t, Split(ediData, LINE_SEP), n);
    FirstLinesFree(spire, timeStamp);
    MergedLines(ediData, spire, Some(response), t, timeStamp, lite);
    LinesLength(lite, n, "");
    NumberedLinesAt(Bodies(lite), n, "");
    BodiesAt(lite, a);
    RecordColumns(lite, a, n + a);
    var line := NumberedLine(n + a, Body(lite[a]));
    assert line + "" == line;
    FrontAt(FirstLines(spire, timeStamp), NumberedLines(Bodies(lite), n, ""),
            [NumberedLine(n + |lite|, Body(TrailerFor(Terminated(FirstLines(spire, timeStamp)) + RecordsText(lite, n))))], a);
  }

  lemma FrontAt(a: seq<string>, b: seq<string>, c: seq<string>, i: nat)
    requires i < |b|
    ensures |a| + i < |a + b + c| && (a + b + c)[|a| + i] == b[i]
  {
  }

  lemma RecordColumns(records: seq<Fields>, a: nat, n: nat)
    requires a < |records| && AllSeparatorFree(records)
    ensures Split(NumberedLine(n, Body(records[a])), FIELD_SEP) == [Decimal(n)] + records[a]
  {
    var r := records[a];
    assert SeparatorFree(r);
    FreeNumber(n);
    SplitJoin(r, FIELD_SEP);
    SplitAtSep(Decimal(n), Body(r), FIELD_SEP);
  }

  /** In the merged text, a licence that LITE accepted is accepted under the transaction the tables give for it. */
  lemma AcceptedLineNamesItsTransaction(ediData: string, spire: Option<string>, response: LiteResponse, t: Mappings,
                                        timeStamp: string, q: nat)
    requires Merged(ediData, spire, Some(response), t, timeStamp).Some? && q < |response.accepted|
    requires SeparatorFreeTexts(response, t) && Free(timeStamp, LINE_SEP)
    ensures KnownAccepted(response.accepted[q], t)
    ensures var lines := Split(Merged(ediData, spire, Some(response), t, timeStamp).value, LINE_SEP);
            var at := |FirstLines(spire, timeStamp)| + q;
            && at < |lines|
            && Split(lines[at], FIELD_SEP) ==
               [Decimal(FirstNumber(spire) + q), "accepted", AcceptedUnder(response.accepted[q], t)]
  {
    var n := FirstNumber(spire);
    hide FirstNumber, FirstLines, Split, Merged, LiteRecords, LiteRejected, LiteAccepted, KnownAccepted, AcceptedUnder, SeparatorFreeTexts, Decimal;
    MergedWhenRecords(ediData, spire, Some(response), t, timeStamp);
    LiteRecordsParts(response, t, Split(ediData, LINE_SEP), n);
    AcceptedAre(response.accepted, t);
    LineOfRecord(ediData, spire, response, t, timeStamp, q);
  }

  /**
   In the merged text, a licence that LITE rejected stands under the transaction the tables give for
   its first rejected good, and its error is LITE's own followed by the position of that good's line
   in the usage file; the rejection is closed with its three lines.
   */
  lemma RejectionNamesItsLine(f: UsageFile, pad: string, rest: seq<string>, spire: Option<string>, response: LiteResponse,
                              t: Mappings, timeStamp: string, q: nat, i: nat, k: nat)
    requires WellFormed(f) && PadOk(pad) && AllFree(rest, LINE_SEP)
    requires Merged(FileText(f, pad, rest), spire, Some(response), t, timeStamp).Some?
    requires SeparatorFreeTexts(response, t) && Free(timeStamp, LINE_SEP)
    requires q < |response.rejected| && response.rejected[q].rejectedGoods != []
    requires KnownRejected(response.rejected[q], t) ==> IsAt(f, rest, response.rejected[q], t, i, k)
    ensures KnownRejected(response.rejected[q], t) && i < |f.blocks|
    ensures var lines := Split(Merged(FileText(f, pad, rest), spire, Some(response), t, timeStamp).value, LINE_SEP);
            var before := |response.accepted| + 3 * Rejections(response.rejected[..q]);
            var at := |FirstLines(spire, timeStamp)| + before;
            var n := FirstNumber(spire) + before;
            && at + 2 < |lines|
            && Split(lines[at], FIELD_SEP) == [Decimal(n), "rejected", RejectedUnder(response.rejected[q], t)]
            && Split(lines[at + 1], FIELD_SEP) ==
               [Decimal(n + 1), "error", Decimal(n + 1),
                response.rejected[q].rejectedGoods[0].error + " in line " + Decimal(PositionOf(f, i, k))]
            && Split(lines[at + 2], FIELD_SEP) == [Decimal(n + 2), "end", "rejected", Decimal(3)]
  {
    hide *;
    var data := FileText(f, pad, rest);
    var m := FirstNumber(spire);
    MergedWhenRecords(data, spire, Some(response), t, timeStamp);
    LiteRecordsParts(response, t, Split(data, LINE_SEP), m);
    AcceptedAre(response.accepted, t);
    var size := |response.accepted|;
    RejectedKnown(response.rejected, t, Split(data, LINE_SEP), m + size, q);
    PositionFound(f, pad, rest, response.rejected[q], t, i, k);
    var position := Decimal(PositionOf(f, i, k));
    RejectedAt(response.rejected, t, Split(data, LINE_SEP), m + size, q, position);
    var offset := 3 * Rejections(response.rejected[..q]);
    var records := LiteRejected(response.rejected, t, Split(data, LINE_SEP), m + size).value;
    ReportsMean(records, offset, RejectedUnder(response.rejected[q], t), response.rejected[q].rejectedGoods[0].error, position,
                m + size + offset);
    LineOfRecord(data, spire, response, t, timeStamp, size + offset);
    LineOfRecord(data, spire, response, t, timeStamp, size + offset + 1);
    LineOfRecord(data, spire, response, t, timeStamp, size + offset + 2);
  }

  lemma ReportsMean(records: seq<Fields>, at: nat, under: string, error: string, position: string, n: nat)
    requires at + 3 <= |records| && Reports(records[at..at + 3], under, error, position, n)
    ensures records[at] == ["rejected", under]
    ensures records[at + 1] == ["error", Decimal(n + 1), error + " in line " + position]
    ensures records[at + 2] == ["end", "rejected", Decimal(3)]
  {
  }

  // ---------------------------------------------------------------- from the split to the reply

  /** The transactions are looked up among the rows of this usage file. */
  predicate LookedUpIn(t: Mappings, rows: set<TransactionRow>, usage: nat) {
    forall key :: key in t.transactions ==> TransactionRow(key.1, usage, key.0, t.transactions[key]) in rows
  }

  /** A goods line with the number stands in the block. */
  predicate HasGoodsLine(b: UsageBlock, number: nat) {
    exists k :: 0 <= k < |b.details| && IsGoods(b.details[k]) && ParseInt(b.details[k][1]) == Some(number)
  }

  /** The `i`-th block is LITE's, of this licence and transaction. */
  predicate IsBlockOf(f: UsageFile, liteLicences: set<string>, licence: string, transaction: string, i: nat)
    requires WellFormed(f)
  {
    i < |f.blocks| && BlockOk(f.blocks[i]) && licence in liteLicences
    && f.blocks[i].head[3] == licence && f.blocks[i].head[1] == transaction
  }

  lemma LookedUpTransaction(f: UsageFile, liteLicences: set<string>, usage: nat, t: Mappings, licence: string, line: Option<nat>)
    returns (i: nat)
    requires WellFormed(f) && LookedUpIn(t, FileRows(f.blocks, liteLicences, Some(usage), {}), usage)
    requires (licence, line) in t.transactions
    ensures IsBlockOf(f, liteLicences, licence, t.transactions[(licence, line)], i)
    ensures line.Some? ==> HasGoodsLine(f.blocks[i], line.value)
    ensures line.None? ==> !HasGoods(f.blocks[i])
  {
    var row := TransactionRow(line, usage, licence, t.transactions[(licence, line)]);
    assert row in FileRows(f.blocks, liteLicences, Some(usage), {});
    RowsWrittenExactly(f.blocks, liteLicences, usage, {}, row);
    hide FileRows, LookedUpIn, HeadOk, TailOk, DetailOk, ParseInt, HasRow, SeenBefore;
    i :| 0 <= i < |f.blocks| && Writes(f.blocks, liteLicences, usage, {}, row, i);
    assert BlockOk(f.blocks[i]);
    HeadIs(f.blocks[i]);
  }

  /**
   Split, mapping tables, LITE's answer and merged reply together. When the transactions are looked
   up in the rows of the file's own split, a licence LITE accepted is accepted under the transaction
   of one of that licence's own LITE blocks: one that has the goods line of the first good LITE
   names, or none at all if LITE names no good.
   */
  lemma AcceptedUnderItsOwnBlock(f: UsageFile, liteLicences: set<string>, usage: nat, t: Mappings, a: AcceptedLicence)
    returns (i: nat)
    requires WellFormed(f) && LookedUpIn(t, FileRows(f.blocks, liteLicences, Some(usage), {}), usage) && KnownAccepted(a, t)
    ensures IsBlockOf(f, liteLicences, t.references[a.id], AcceptedUnder(a, t), i)
    ensures if a.goods == [] then !HasGoods(f.blocks[i])
            else HasGoodsLine(f.blocks[i], t.goodLines[(t.references[a.id], a.goods[0])])
  {
    hide LookedUpIn, FileRows, WellFormed, IsBlockOf, HasGoodsLine, HasGoods;
    if a.goods == [] {
      i := LookedUpTransaction(f, liteLicences, usage, t, t.references[a.id], None);
    } else {
      i := LookedUpTransaction(f, liteLicences, usage, t, t.references[a.id], Some(t.goodLines[(t.references[a.id], a.goods[0])]));
    }
  }

  /** The same of a licence LITE rejected: its transaction is that of a block with the rejected good's own line. */
  lemma RejectedUnderItsOwnBlock(f: UsageFile, liteLicences: set<string>, usage: nat, t: Mappings, r: RejectedLicence)
    returns (i: nat)
    requires WellFormed(f) && LookedUpIn(t, FileRows(f.blocks, liteLicences, Some(usage), {}), usage)
    requires r.rejectedGoods != [] && KnownRejected(r, t)
    ensures IsBlockOf(f, liteLicences, t.references[r.id], RejectedUnder(r, t), i)
    ensures HasGoodsLine(f.blocks[i], t.goodLines[(t.references[r.id], r.rejectedGoods[0].id)])
  {
    hide LookedUpIn, FileRows, WellFormed, IsBlockOf, HasGoodsLine, HasGoods;
    i := LookedUpTransaction(f, liteLicences, usage, t, t.references[r.id], Some(RejectedLine(r, t)));
  }

  // ---------------------------------------------------------------- the header written in SPIRE's place

  lemma FreeHeader(timeStamp: string)
    requires Free(timeStamp, FIELD_SEP) && Free(timeStamp, LINE_SEP)
    ensures AllFree(["fileHeader", "SPIRE", "CHIEF", "usageReply", timeStamp, "<run-number>"], FIELD_SEP)
  {
  }

  lemma NoReply(spire: Option<string>)
    requires spire == None || spire == Some("")
    ensures !SpireReplied(spire)
  {
  }

  lemma OwnHeaderColumns(timeStamp: string)
    ensures OwnHeader(timeStamp) == ["fileHeader", "SPIRE", "CHIEF", "usageReply", timeStamp, "<run-number>"]
  {
  }

  /** Without a reply from SPIRE the merged text starts with a header of our own, with the time and no run number. */
  lemma OwnHeaderIsWritten(ediData: string, spire: Option<string>, response: LiteResponse, t: Mappings, timeStamp: string)
    requires spire == None || spire == Some("")
    requires Merged(ediData, spire, Some(response), t, timeStamp).Some? && SeparatorFreeTexts(response, t)
    requires Free(timeStamp, FIELD_SEP) && Free(timeStamp, LINE_SEP)
    ensures Split(Split(Merged(ediData, spire, Some(response), t, timeStamp).value, LINE_SEP)[0], FIELD_SEP) ==
            [Decimal(1), "fileHeader", "SPIRE", "CHIEF", "usageReply", timeStamp, "<run-number>"]
  {
    hide *;
    NoReply(spire);
    OwnHeaderColumns(timeStamp);
    FreeHeader(timeStamp);
    var n := FirstNumber(spire);
    MergedWhenRecords(ediData, spire, Some(response), t, timeStamp);
    var lite := LiteRecords(Some(response), t, Split(ediData, LINE_SEP), n).value;
    LiteIsFree(response, t, Split(ediData, LINE_SEP), n);
    FirstLinesFree(spire, timeStamp);
    MergedLines(ediData, spire, Some(response), t, timeStamp, lite);
    OwnFirstLines(spire, timeStamp);
    SplitJoin(OwnHeader(timeStamp), FIELD_SEP);
    BodyIs(OwnHeader(timeStamp));
    FreeNumber(1);
    SplitAtSep(Decimal(1), Body(OwnHeader(timeStamp)), FIELD_SEP);
    NumberedLineParts(1, Body(OwnHeader(timeStamp)));
  }

  lemma BodyIs(r: Fields)
    ensures Body(r) == Join(r, FIELD_SEP)
  {
  }

  lemma NumberedLineParts(n: nat, body: string)
    ensures NumberedLine(n, body) == Decimal(n) + [FIELD_SEP] + body
  {
  }
}
