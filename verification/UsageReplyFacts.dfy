/**
 What the merged usage reply says: numbering, counts and error positions.
 */
module UsageReplyFacts {
  import opened Text
  import opened UsageSplit
  import opened UsageFiles
  import opened UsagePartition
  import opened UsageReply

  // ---------------------------------------------------------------- reply records

  /** The word is this record's type, and occurs nowhere else in it. */
  predicate OnlyAsType(r: Fields, w: string)
    requires |r| >= 1
  {
    r[0] == w && Lacks(r[1..], w)
  }

  predicate IsRejectionEnd(r: Fields) {
    |r| >= 2 && r[0] == END && r[1] == REJECTED
  }

  /** A reply record whose texts are free of the words the merger counts. */
  predicate ReplyRecordOk(r: Fields) {
    && SeparatorFree(r)
    && Lacks(r, FILE_TRAILER)
    && (OnlyAsType(r, ACCEPTED) || Lacks(r, ACCEPTED))
    && (OnlyAsType(r, REJECTED) || (IsRejectionEnd(r) && Lacks(r[2..], REJECTED)) || Lacks(r, REJECTED))
    && (OnlyAsType(r, FILE_ERROR) || Lacks(r, FILE_ERROR))
  }

  predicate RecordsOk(records: seq<Fields>) {
    forall k :: 0 <= k < |records| ==> ReplyRecordOk(records[k])
  }

  /** How many records have the type. */
  function OfType(records: seq<Fields>, w: string): nat
    requires RecordsOk(records)
  {
    if records == [] then 0 else (if records[0][0] == w then 1 else 0) + OfType(records[1..], w)
  }

  function RejectionEnds(records: seq<Fields>): nat {
    if records == [] then 0 else (if IsRejectionEnd(records[0]) then 1 else 0) + RejectionEnds(records[1..])
  }

  // ---------------------------------------------------------------- counting words in lines

  predicate Word(w: string) {
    PlainWord(w) && Free(w, LINE_SEP) && Free(w, '\r')
  }

  lemma CountedWords()
    ensures Word(ACCEPTED) && Word(REJECTED) && Word(FILE_ERROR) && Word(FILE_TRAILER) && Word(LICENCE_USAGE) && Word(LINE)
  {
    ReplyWords();
    FileWords();
  }

  lemma ReplyWords()
    ensures Word(ACCEPTED) && Word(REJECTED) && Word(FILE_ERROR)
  {
  }

  lemma FileWords()
    ensures Word(FILE_TRAILER) && Word(LICENCE_USAGE) && Word(LINE)
  {
  }

  lemma {:induction false} CountAllLacks(r: Fields, w: string)
    requires w != "" && Lacks(r, w)
    ensures CountAll(r, w) == 0
  {
    if r != [] {
      assert !Contains(r[0], w);
      CountAbsent(r[0], w);
      forall k | 0 <= k < |r[1..]|
        ensures !Contains(r[1..][k], w)
      {
        assert r[1..][k] == r[k + 1];
      }
      CountAllLacks(r[1..], w);
    }
  }

  lemma {:induction false} CountLine(n: nat, r: Fields, w: string, pad: string)
    requires |r| >= 1 && Word(w) && PadOk(pad)
    ensures Count(NumberedLine(n, Body(r)) + pad, w) == CountAll(r, w)
  {
    DecimalContainsNoWord(n, w);
    CountAbsent(Decimal(n), w);
    CountAcrossSep(Decimal(n), Body(r), FIELD_SEP, w);
    CountJoin(r, FIELD_SEP, w);
    CountPadded(NumberedLine(n, Body(r)), pad, w);
  }

  lemma CountPadded(s: string, pad: string, w: string)
    requires Word(w) && PadOk(pad)
    ensures Count(s + pad, w) == Count(s, w)
  {
    if pad == "" {
      assert s + pad == s;
    } else {
      CountAcrossSep(s, "", '\r', w);
      assert s + ['\r'] + "" == s + pad;
    }
  }

  lemma {:induction false} CountTerminated(lines: seq<string>, w: string)
    requires Word(w)
    ensures Count(Terminated(lines), w) == CountAll(lines, w)
  {
    if lines != [] {
      CountAcrossSep(lines[0], Terminated(lines[1..]), LINE_SEP, w);
      CountTerminated(lines[1..], w);
    }
  }

  lemma {:induction false} CountAllAppend(a: seq<string>, b: seq<string>, w: string)
    requires w != ""
    ensures CountAll(a + b, w) == CountAll(a, w) + CountAll(b, w)
  {
    if a == [] {
      assert a + b == b;
    } else {
      assert (a + b)[1..] == a[1..] + b;
      CountAllAppend(a[1..], b, w);
    }
  }

  /** The counts of one record: each word once where it is the type (`rejected` also at the end record). */
  lemma RecordCounts(r: Fields)
    requires ReplyRecordOk(r)
    ensures CountAll(r, ACCEPTED) == if r[0] == ACCEPTED then 1 else 0
    ensures CountAll(r, REJECTED) == (if r[0] == REJECTED then 1 else 0) + (if IsRejectionEnd(r) then 1 else 0)
    ensures CountAll(r, FILE_ERROR) == if r[0] == FILE_ERROR then 1 else 0
  {
    WordCount(r, ACCEPTED);
    WordCount(r, FILE_ERROR);
    WordCount(r, REJECTED);
    if IsRejectionEnd(r) && Lacks(r[2..], REJECTED) {
      CountAllLacks(r[2..], REJECTED);
      CountSelf(REJECTED);
      assert r[1..][1..] == r[2..];
      assert |END| < |REJECTED|;
      assert Count(r[0], REJECTED) == 0;
      assert Count(r[1], REJECTED) == 1;
    }
  }

  lemma WordCount(r: Fields, w: string)
    requires |r| >= 1 && w != ""
    ensures OnlyAsType(r, w) ==> CountAll(r, w) == 1 && r[0] == w && (|r| >= 2 ==> r[1] != w)
    ensures Lacks(r, w) ==> CountAll(r, w) == 0 && r[0] != w && (|r| >= 2 ==> r[1] != w)
  {
    HasOwnType(r);
    if OnlyAsType(r, w) {
      CountSelf(w);
      CountAllLacks(r[1..], w);
      if |r| >= 2 {
        HasOwnType(r[1..]);
      }
    }
    if Lacks(r, w) {
      CountAllLacks(r, w);
    }
  }

  lemma {:induction false} CountRecords(records: seq<Fields>, n: nat, pad: string)
    requires RecordsOk(records) && PadOk(pad)
    ensures var lines := NumberedLines(Bodies(records), n, pad);
            && CountAll(lines, ACCEPTED) == OfType(records, ACCEPTED)
            && CountAll(lines, REJECTED) == OfType(records, REJECTED) + RejectionEnds(records)
            && CountAll(lines, FILE_ERROR) == OfType(records, FILE_ERROR)
  {
    if records != [] {
      CountedWords();
      CountLine(n, records[0], ACCEPTED, pad);
      CountLine(n, records[0], REJECTED, pad);
      CountLine(n, records[0], FILE_ERROR, pad);
      RecordCounts(records[0]);
      CountRecords(records[1..], n + 1, pad);
      var lines := NumberedLines(Bodies(records), n, pad);
      assert lines[1..] == NumberedLines(Bodies(records[1..]), n + 1, pad);
    }
  }

  // ---------------------------------------------------------------- SPIRE's part

  /** SPIRE's reply: records numbered from 1, then a trailer, then anything. */
  function SpireReply(records: seq<Fields>, trailer: Fields, pad: string, rest: seq<string>): string {
    Join(NumberedLines(Bodies(records), 1, pad) + ([NumberedLine(|records| + 1, Body(trailer)) + pad] + rest), LINE_SEP)
  }

  predicate ReplyTrailerOk(trailer: Fields) {
    Clean(trailer) && trailer[0] == FILE_TRAILER
  }

  lemma ContainsPadded(s: string, pad: string, w: string)
    requires Word(w) && PadOk(pad)
    ensures Contains(s + pad, w) <==> Contains(s, w)
  {
    if pad == "" {
      assert s + pad == s;
    } else {
      ContainsAcrossSep(s, "", '\r', w);
      assert s + ['\r'] + "" == s + pad;
      EmptyHasNoWord(w);
    }
  }

  lemma EmptyHasNoWord(w: string)
    requires w != ""
    ensures !Contains("", w)
  {
    forall i | 0 <= i <= |""|
      ensures !At("", i, w)
    {
    }
  }

  lemma {:induction false} BeforeTrailerOf(records: seq<Fields>, n: nat, pad: string, last: string, rest: seq<string>)
    requires RecordsOk(records) && PadOk(pad) && Contains(last, FILE_TRAILER)
    ensures BeforeTrailer(NumberedLines(Bodies(records), n, pad) + ([last] + rest)) == NumberedLines(Bodies(records), n, pad)
  {
    assert records != [] ==> ReplyRecordOk(records[0]) && |records[0]| >= 1;
    hide Contains, Word, OnlyAsType, SeparatorFree, IsRejectionEnd;
    var lines := NumberedLines(Bodies(records), n, pad);
    if records == [] {
      assert lines + ([last] + rest) == [last] + rest;
    } else {
      CountedWords();
      WordsArePlain();
      WordInLine(n, records[0], FILE_TRAILER);
      ContainsPadded(NumberedLine(n, Body(records[0])), pad, FILE_TRAILER);
      BeforeTrailerOf(records[1..], n + 1, pad, last, rest);
      assert (lines + ([last] + rest))[1..] == NumberedLines(Bodies(records[1..]), n + 1, pad) + ([last] + rest);
    }
  }

  lemma RecordsSeparatorFree(records: seq<Fields>)
    requires RecordsOk(records)
    ensures forall k :: 0 <= k < |records| ==> SeparatorFree(records[k])
  {
  }

  lemma SpireFirstLines(records: seq<Fields>, trailer: Fields, pad: string, rest: seq<string>, timeStamp: string)
    requires RecordsOk(records) && ReplyTrailerOk(trailer) && PadOk(pad) && AllFree(rest, LINE_SEP)
    ensures var spire := Some(SpireReply(records, trailer, pad, rest));
            && SpireReplied(spire)
            && FirstLines(spire, timeStamp) == NumberedLines(Bodies(records), 1, pad)
            && FirstNumber(spire) == |records| + 1
  {
    hide *;
    var inner := NumberedLines(Bodies(records), 1, pad);
    var last := NumberedLine(|records| + 1, Body(trailer)) + pad;
    SpireReplyLines(records, trailer, pad, rest);
    TrailerLine(|records| + 1, trailer, pad);
    BeforeTrailerOf(records, 1, pad, last, rest);
    RecordLines(records, pad);
    SpireRepliedIs(SpireReply(records, trailer, pad, rest), timeStamp, inner);
  }

  lemma RecordLines(records: seq<Fields>, pad: string)
    ensures |NumberedLines(Bodies(records), 1, pad)| == |records|
  {
    BodiesLength(records);
    NumberedLinesAt(Bodies(records), 1, pad);
  }

  /** What the merger makes of a reply with some lines before its trailer. */
  lemma SpireRepliedIs(reply: string, timeStamp: string, before: seq<string>)
    requires reply != "" && BeforeTrailer(Split(reply, LINE_SEP)) == before
    ensures var spire := Some(reply);
            && SpireReplied(spire)
            && FirstLines(spire, timeStamp) == before
            && FirstNumber(spire) == |before| + 1
  {
  }

  lemma TrailerLine(n: nat, trailer: Fields, pad: string)
    requires ReplyTrailerOk(trailer) && PadOk(pad)
    ensures Contains(NumberedLine(n, Body(trailer)) + pad, FILE_TRAILER)
    ensures Free(NumberedLine(n, Body(trailer)) + pad, LINE_SEP)
  {
    CountedWords();
    LineShape(n, trailer, pad);
    WordInLine(n, trailer, FILE_TRAILER);
    HasOwnType(trailer);
    ContainsPadded(NumberedLine(n, Body(trailer)), pad, FILE_TRAILER);
  }

  lemma SpireReplyLines(records: seq<Fields>, trailer: Fields, pad: string, rest: seq<string>)
    requires RecordsOk(records) && ReplyTrailerOk(trailer) && PadOk(pad) && AllFree(rest, LINE_SEP)
    ensures var reply := SpireReply(records, trailer, pad, rest);
            && reply != ""
            && Split(reply, LINE_SEP)
               == NumberedLines(Bodies(records), 1, pad) + ([NumberedLine(|records| + 1, Body(trailer)) + pad] + rest)
  {
    RecordsSeparatorFree(records);
    BodiesFree(records);
    NumberedLinesFree(Bodies(records), 1, pad);
    NumberedLinesAt(Bodies(records), 1, pad);
    TrailerLine(|records| + 1, trailer, pad);
    var lines := NumberedLines(Bodies(records), 1, pad) + ([NumberedLine(|records| + 1, Body(trailer)) + pad] + rest);
    hide ReplyRecordOk, Split, Bodies, Body, NumberedLines, Contains;
    SplitJoin(lines, LINE_SEP);
    NonEmptyJoin(lines);
  }

  lemma NonEmptyJoin(lines: seq<string>)
    requires |lines| >= 1 && lines[0] != ""
    ensures Join(lines, LINE_SEP) != ""
  {
  }

  // ---------------------------------------------------------------- main results

  /** The text of a reply whose records, from 1 upwards, are SPIRE's, LITE's and a trailer. */
  function ReplyText(spire: seq<Fields>, pad: string, lite: seq<Fields>, trailer: Fields): string {
    Terminated(NumberedLines(Bodies(spire), 1, pad))
    + RecordsText(lite, |spire| + 1)
    + NumberedLine(|spire| + |lite| + 1, Body(trailer))
  }

  /**
   The merged reply when SPIRE replied. It is SPIRE's records, then LITE's, then a trailer, all
   numbered consecutively from 1; the trailer counts the accepted records and, when every
   rejected header has its end record, the rejected ones. The file errors are halved.
   */
  lemma MergedReply(records: seq<Fields>, spireTrailer: Fields, pad: string, rest: seq<string>,
                    ediData: string, response: Option<LiteResponse>, t: Mappings, timeStamp: string)
    requires RecordsOk(records) && ReplyTrailerOk(spireTrailer) && PadOk(pad) && AllFree(rest, LINE_SEP)
    requires OfType(records, REJECTED) == RejectionEnds(records)
    ensures var spire := Some(SpireReply(records, spireTrailer, pad, rest));
            var lite := LiteRecords(response, t, Split(ediData, LINE_SEP), |records| + 1);
            var merged := Merged(ediData, spire, response, t, timeStamp);
            && (lite.None? ==> merged.None?)
            && (lite.Some? && RecordsOk(lite.value) ==>
                  var all := records + lite.value;
                  && RecordsOk(all)
                  && merged == Some(ReplyText(records, pad, lite.value,
                    [FILE_TRAILER, Decimal(OfType(all, ACCEPTED)), Decimal(OfType(all, REJECTED)), Decimal(OfType(all, FILE_ERROR) / 2)])))
  {
    var spire := Some(SpireReply(records, spireTrailer, pad, rest));
    var n := |records| + 1;
    var lite := LiteRecords(response, t, Split(ediData, LINE_SEP), n);
    SpireFirstLines(records, spireTrailer, pad, rest, timeStamp);
    if lite.Some? && RecordsOk(lite.value) {
      LiteBalanced(response, t, Split(ediData, LINE_SEP), n);
      TrailerOfReply(records, pad, lite.value);
      hide *;
      MergedIs(ediData, spire, response, t, timeStamp, lite.value);
    }
  }

  /** `Merged` when LITE's records are known. */
  lemma MergedIs(ediData: string, spire: Option<string>, response: Option<LiteResponse>, t: Mappings, timeStamp: string,
                 lite: seq<Fields>)
    requires LiteRecords(response, t, Split(ediData, LINE_SEP), FirstNumber(spire)) == Some(lite)
    ensures var text := Terminated(FirstLines(spire, timeStamp)) + RecordsText(lite, FirstNumber(spire));
            Merged(ediData, spire, response, t, timeStamp) ==
            Some(text + NumberedLine(FirstNumber(spire) + |lite|, Body(TrailerFor(text))))
  {
    hide LiteRecords, FirstLines, FirstNumber, RecordsText, TrailerFor, NumberedLine, Terminated, Split;
  }

  lemma TrailerOfReply(records: seq<Fields>, pad: string, lite: seq<Fields>)
    requires RecordsOk(records) && RecordsOk(lite) && PadOk(pad) && Balanced(records) && Balanced(lite)
    ensures var all := records + lite;
            && RecordsOk(all)
            && TrailerFor(Terminated(NumberedLines(Bodies(records), 1, pad)) + RecordsText(lite, |records| + 1)) ==
               [FILE_TRAILER, Decimal(OfType(all, ACCEPTED)), Decimal(OfType(all, REJECTED)), Decimal(OfType(all, FILE_ERROR) / 2)]
  {
    hide *;
    var all := records + lite;
    var text := Terminated(NumberedLines(Bodies(records), 1, pad)) + RecordsText(lite, |records| + 1);
    OfTypeAppend(records, lite, ACCEPTED);
    OfTypeAppend(records, lite, REJECTED);
    OfTypeAppend(records, lite, FILE_ERROR);
    CountsOfText(records, pad, lite);
    BalancedCounts(records);
    BalancedCounts(lite);
    TrailerForCounts(text, OfType(all, ACCEPTED), OfType(all, REJECTED), OfType(all, FILE_ERROR));
  }

  lemma BalancedCounts(records: seq<Fields>)
    requires RecordsOk(records) && Balanced(records)
    ensures OfType(records, REJECTED) == RejectionEnds(records)
  {
  }

  lemma TrailerForCounts(text: string, accepted: nat, rejected: nat, fileErrors: nat)
    requires Count(text, ACCEPTED) == accepted
    requires Count(text, REJECTED) == 2 * rejected
    requires Count(text, FILE_ERROR) == fileErrors
    ensures TrailerFor(text) == [FILE_TRAILER, Decimal(accepted), Decimal(rejected), Decimal(fileErrors / 2)]
  {
  }

  lemma CountsOfText(records: seq<Fields>, pad: string, lite: seq<Fields>)
    requires RecordsOk(records) && RecordsOk(lite) && PadOk(pad)
    ensures var text := Terminated(NumberedLines(Bodies(records), 1, pad)) + RecordsText(lite, |records| + 1);
            && Count(text, ACCEPTED) == OfType(records, ACCEPTED) + OfType(lite, ACCEPTED)
            && Count(text, REJECTED) == OfType(records, REJECTED) + RejectionEnds(records) + OfType(lite, REJECTED) + RejectionEnds(lite)
            && Count(text, FILE_ERROR) == OfType(records, FILE_ERROR) + OfType(lite, FILE_ERROR)
  {
    CountedWords();
    var a := NumberedLines(Bodies(records), 1, pad);
    var b := NumberedLines(Bodies(lite), |records| + 1, "");
    CountRecords(records, 1, pad);
    CountRecords(lite, |records| + 1, "");
    TerminatedAppend(a, b);
    hide Count, CountAll, Terminated, OfType, RejectionEnds, NumberedLines;
    CountTerminated(a + b, ACCEPTED);
    CountTerminated(a + b, REJECTED);
    CountTerminated(a + b, FILE_ERROR);
    CountAllAppend(a, b, ACCEPTED);
    CountAllAppend(a, b, REJECTED);
    CountAllAppend(a, b, FILE_ERROR);
  }

  lemma {:induction false} OfTypeAppend(a: seq<Fields>, b: seq<Fields>, w: string)
    requires RecordsOk(a) && RecordsOk(b)
    ensures RecordsOk(a + b)
    ensures OfType(a + b, w) == OfType(a, w) + OfType(b, w)
  {
    if a == [] {
      assert a + b == b;
    } else {
      assert (a + b)[1..] == a[1..] + b;
      OfTypeAppend(a[1..], b, w);
    }
  }

  lemma {:induction false} RejectionEndsAppend(a: seq<Fields>, b: seq<Fields>)
    ensures RejectionEnds(a + b) == RejectionEnds(a) + RejectionEnds(b)
  {
    if a == [] {
      assert a + b == b;
    } else {
      assert (a + b)[1..] == a[1..] + b;
      RejectionEndsAppend(a[1..], b);
    }
  }

  predicate Balanced(records: seq<Fields>) {
    RecordsOk(records) ==> OfType(records, REJECTED) == RejectionEnds(records)
  }

  lemma BalancedAppend(a: seq<Fields>, b: seq<Fields>)
    requires Balanced(a) && Balanced(b)
    ensures Balanced(a + b)
  {
    if RecordsOk(a + b) {
      forall k | 0 <= k < |a|
        ensures ReplyRecordOk(a[k])
      {
        assert (a + b)[k] == a[k];
      }
      forall k | 0 <= k < |b|
        ensures ReplyRecordOk(b[k])
      {
        assert (a + b)[|a| + k] == b[k];
      }
      OfTypeAppend(a, b, REJECTED);
      RejectionEndsAppend(a, b);
    }
  }

  lemma {:induction false} AcceptedBalanced(licences: seq<AcceptedLicence>, t: Mappings)
    requires LiteAccepted(licences, t).Some?
    ensures Balanced(LiteAccepted(licences, t).value)
  {
    if licences != [] {
      AcceptedBalanced(licences[1..], t);
      var first := [[ACCEPTED, AcceptedTransaction(licences[0], t).value]];
      assert first[1..] == [];
      BalancedAppend(first, LiteAccepted(licences[1..], t).value);
    }
  }

  lemma RejectionBalanced(r: Rejection, position: string, n: nat)
    ensures Balanced(RejectionRecords(r, position, n))
  {
    var records := RejectionRecords(r, position, n);
    var two := [records[1], records[2]];
    var one := [records[2]];
    assert records[1..] == two && two[1..] == one && one[1..] == [];
    if RecordsOk(records) {
      assert ReplyRecordOk(records[0]) && ReplyRecordOk(records[1]) && ReplyRecordOk(records[2]);
      assert IsRejectionEnd(records[2]) && !IsRejectionEnd(records[1]) && !IsRejectionEnd(records[0]);
      assert RejectionEnds(one) == 1 + RejectionEnds(one[1..]);
      assert RejectionEnds(two) == 0 + RejectionEnds(two[1..]);
      assert RejectionEnds(records) == 0 + RejectionEnds(records[1..]);
      assert OfType(one, REJECTED) == 0;
      assert OfType(two, REJECTED) == 0;
      assert OfType(records, REJECTED) == 1;
    }
  }

  lemma {:induction false} RejectedBalanced(licences: seq<RejectedLicence>, t: Mappings, lines: seq<string>, n: nat)
    requires LiteRejected(licences, t, lines, n).Some?
    ensures Balanced(LiteRejected(licences, t, lines, n).value)
  {
    if licences != [] {
      hide ScanFrom, RejectionRecords;
      var records := LiteRejection(licences[0], t, lines, n).value;
      RejectedBalanced(licences[1..], t, lines, n + |records|);
      if licences[0].rejectedGoods != [] {
        var r := RejectionOf(licences[0], t).value;
        RejectionBalanced(r, ScanFrom(lines, 0, false, "", r.transaction, r.line).value, n);
      }
      BalancedAppend(records, LiteRejected(licences[1..], t, lines, n + |records|).value);
    }
  }

  lemma LiteBalanced(response: Option<LiteResponse>, t: Mappings, lines: seq<string>, n: nat)
    requires LiteRecords(response, t, lines, n).Some?
    ensures Balanced(LiteRecords(response, t, lines, n).value)
  {
    if response.Some? {
      var a := LiteAccepted(response.value.accepted, t).value;
      AcceptedBalanced(response.value.accepted, t);
      RejectedBalanced(response.value.rejected, t, lines, n + |a|);
      BalancedAppend(a, LiteRejected(response.value.rejected, t, lines, n + |a|).value);
    }
  }

  lemma CountsFree(a: nat, b: nat, c: nat)
    ensures AllFree([FILE_TRAILER, Decimal(a), Decimal(b), Decimal(c)], FIELD_SEP)
  {
    NumberFree(a);
    NumberFree(b);
    NumberFree(c);
    hide Decimal;
  }

  /** Trailers with different counts print differently. */
  lemma TrailersDiffer(accepted: nat, rejected: nat, m: nat, n: nat)
    ensures var a := [FILE_TRAILER, Decimal(accepted), Decimal(rejected), Decimal(m)];
            var b := [FILE_TRAILER, Decimal(accepted), Decimal(rejected), Decimal(n)];
            Body(a) == Body(b) <==> m == n
  {
    CountsFree(accepted, rejected, m);
    CountsFree(accepted, rejected, n);
    DecimalRoundTrip(m);
    DecimalRoundTrip(n);
    hide *;
    var a := [FILE_TRAILER, Decimal(accepted), Decimal(rejected), Decimal(m)];
    var b := [FILE_TRAILER, Decimal(accepted), Decimal(rejected), Decimal(n)];
    SameBodySameFields(a, b);
    assert a == b ==> a[3] == b[3];
  }

  lemma SameBodySameFields(a: Fields, b: Fields)
    requires a != [] && b != [] && AllFree(a, FIELD_SEP) && AllFree(b, FIELD_SEP)
    ensures Body(a) == Body(b) <==> a == b
  {
    SplitJoin(a, FIELD_SEP);
    SplitJoin(b, FIELD_SEP);
  }

  lemma AfterCommonPart(common: string, a: string, b: string)
    ensures (common + a == common + b) <==> (a == b)
  {
    if common + a == common + b {
      assert a == (common + a)[|common|..] && b == (common + b)[|common|..];
    }
  }

  lemma ReplyTextsDiffer(spire: seq<Fields>, pad: string, lite: seq<Fields>, s: Fields, t: Fields)
    ensures ReplyText(spire, pad, lite, s) == ReplyText(spire, pad, lite, t) <==> Body(s) == Body(t)
  {
    var common := Terminated(NumberedLines(Bodies(spire), 1, pad)) + RecordsText(lite, |spire| + 1);
    var number := Decimal(|spire| + |lite| + 1) + [FIELD_SEP];
    AfterCommonPart(common, number + Body(s), number + Body(t));
    AfterCommonPart(number, Body(s), Body(t));
  }

  /**
   The counts on the merged reply's trailer are all true exactly when the reply has no file error:
   the code halves the number of file errors, which stand on one line each.
   */
  lemma TrailerIsTrueExactlyWithoutFileErrors(records: seq<Fields>, spireTrailer: Fields, pad: string, rest: seq<string>,
                                              ediData: string, response: Option<LiteResponse>, t: Mappings,
                                              timeStamp: string, lite: seq<Fields>)
    requires RecordsOk(records) && ReplyTrailerOk(spireTrailer) && PadOk(pad) && AllFree(rest, LINE_SEP)
    requires OfType(records, REJECTED) == RejectionEnds(records)
    requires LiteRecords(response, t, Split(ediData, LINE_SEP), |records| + 1) == Some(lite) && RecordsOk(lite)
    ensures var all := records + lite;
            var trailer := [FILE_TRAILER, Decimal(OfType(all, ACCEPTED)), Decimal(OfType(all, REJECTED)),
                            Decimal(OfType(all, FILE_ERROR))];
            Merged(ediData, Some(SpireReply(records, spireTrailer, pad, rest)), response, t, timeStamp)
            == Some(ReplyText(records, pad, lite, trailer))
            <==> OfType(all, FILE_ERROR) == 0
  {
    hide *;
    MergedReply(records, spireTrailer, pad, rest, ediData, response, t, timeStamp);
    var all := records + lite;
    var errors := OfType(all, FILE_ERROR);
    TrailersDiffer(OfType(all, ACCEPTED), OfType(all, REJECTED), errors / 2, errors);
    ReplyTextsDiffer(records, pad, lite,
                     [FILE_TRAILER, Decimal(OfType(all, ACCEPTED)), Decimal(OfType(all, REJECTED)), Decimal(errors / 2)],
                     [FILE_TRAILER, Decimal(OfType(all, ACCEPTED)), Decimal(OfType(all, REJECTED)), Decimal(errors)]);
  }

  /** A reply with one file error reports none. */
  lemma OneFileErrorIsReportedAsNone(code: string, ediData: string, t: Mappings, timeStamp: string)
    requires PlainText(code)
    ensures Merged(ediData, Some(SpireReply([[FILE_ERROR, code]], [FILE_TRAILER], "", [])), None, t, timeStamp)
            == Some(ReplyText([[FILE_ERROR, code]], "", [], [FILE_TRAILER, "0", "0", "0"]))
  {
    var record := [FILE_ERROR, code];
    TypeThenText(FILE_ERROR, code);
    assert [record] + [] == [record] && [record][1..] == [];
    MergedReply([record], [FILE_TRAILER], "", [], ediData, None, t, timeStamp);
    assert Decimal(0) == "0";
  }

  // ---------------------------------------------------------------- LITE's records

  /** Text without separators and without the words the merger looks for or counts. */
  predicate PlainText(s: string) {
    && Free(s, FIELD_SEP) && Free(s, LINE_SEP)
    && !Contains(s, FILE_TRAILER) && !Contains(s, ACCEPTED) && !Contains(s, REJECTED) && !Contains(s, FILE_ERROR)
  }

  predicate PlainTransactions(t: Mappings) {
    forall key :: key in t.transactions ==> PlainText(t.transactions[key])
  }

  predicate PlainErrors(rejected: seq<RejectedLicence>) {
    forall k :: 0 <= k < |rejected| && rejected[k].rejectedGoods != [] ==> PlainText(rejected[k].rejectedGoods[0].error)
  }

  lemma NotLonger(s: string, w: string)
    requires |s| < |w|
    ensures !Contains(s, w)
  {
  }

  lemma NoneOf(s: string, w: string, c: char)
    requires c in w && c !in s
    ensures !Contains(s, w)
  {
    forall i | 0 <= i <= |s|
      ensures !At(s, i, w)
    {
      if i + |w| <= |s| {
        var k :| 0 <= k < |w| && w[k] == c;
        assert s[i..i + |w|][k] == s[i + k];
      }
    }
  }

  lemma ShortIsPlain(s: string)
    requires |s| < |ACCEPTED| && Free(s, FIELD_SEP) && Free(s, LINE_SEP)
    ensures PlainText(s)
  {
    hide Contains;
    NotLonger(s, FILE_TRAILER);
    NotLonger(s, ACCEPTED);
    NotLonger(s, REJECTED);
    NotLonger(s, FILE_ERROR);
  }

  lemma ShortWords()
    ensures PlainText(END) && PlainText(ERROR) && PlainText("in") && PlainText("line")
  {
    ShortIsPlain(END);
    ShortIsPlain(ERROR);
    ShortIsPlain("in");
    ShortIsPlain("line");
  }

  /** None of the reply's counted words is part of another one of its types. */
  lemma WordsApart()
    ensures !Contains(ACCEPTED, REJECTED) && !Contains(ACCEPTED, FILE_ERROR) && !Contains(ACCEPTED, FILE_TRAILER)
    ensures !Contains(REJECTED, ACCEPTED) && !Contains(REJECTED, FILE_ERROR) && !Contains(REJECTED, FILE_TRAILER)
    ensures !Contains(FILE_ERROR, ACCEPTED) && !Contains(FILE_ERROR, REJECTED) && !Contains(FILE_ERROR, FILE_TRAILER)
  {
    hide Contains;
    NoneOf(ACCEPTED, REJECTED, 'r');
    NoneOf(ACCEPTED, FILE_ERROR, 'f');
    NoneOf(REJECTED, FILE_ERROR, 'f');
    NoneOf(REJECTED, ACCEPTED, 'p');
    NoneOf(FILE_ERROR, ACCEPTED, 'p');
    NoneOf(FILE_ERROR, REJECTED, 'j');
    NotLonger(ACCEPTED, FILE_TRAILER);
    NotLonger(REJECTED, FILE_TRAILER);
    NotLonger(FILE_ERROR, FILE_TRAILER);
  }

  /** A record of a type and one plain text. */
  lemma TypeThenText(w: string, text: string)
    requires w in {ACCEPTED, REJECTED, FILE_ERROR} && PlainText(text)
    ensures ReplyRecordOk([w, text])
  {
    hide Contains;
    WordsApart();
    assert [w, text][1..] == [text];
  }

  lemma PlainJoin(a: string, b: string)
    requires PlainText(a) && PlainText(b)
    ensures PlainText(a + [' '] + b)
  {
    ContainsAcrossSep(a, b, ' ', FILE_TRAILER);
    ContainsAcrossSep(a, b, ' ', ACCEPTED);
    ContainsAcrossSep(a, b, ' ', REJECTED);
    ContainsAcrossSep(a, b, ' ', FILE_ERROR);
  }

  lemma PlainNumber(n: nat)
    ensures PlainText(Decimal(n)) && PlainText("")
  {
    DecimalRoundTrip(n);
    CountedWords();
    DecimalContainsNoWord(n, FILE_TRAILER);
    DecimalContainsNoWord(n, ACCEPTED);
    DecimalContainsNoWord(n, REJECTED);
    DecimalContainsNoWord(n, FILE_ERROR);
  }

  /** The position a scan finds is empty or a number. */
  lemma {:induction false} PositionIsPlain(lines: seq<string>, j: nat, inside: bool, found: string, transaction: string, number: nat)
    requires PlainText(found) && ScanFrom(lines, j, inside, found, transaction, number).Some?
    ensures PlainText(ScanFrom(lines, j, inside, found, transaction, number).value)
  {
    hide PlainText, Contains;
    if lines != [] {
      PlainNumber(j + 1);
      var now := Inside(lines[0], transaction, inside);
      var next := if Contains(lines[0], LINE) && now && Split(lines[0], FIELD_SEP)[2] == Decimal(number) then Decimal(j + 1) else found;
      PositionIsPlain(lines[1..], j + 1, now, next, transaction, number);
    }
  }

  lemma ErrorTextIsPlain(error: string, position: string)
    requires PlainText(error) && PlainText(position)
    ensures PlainText(error + " in line " + position)
  {
    ShortWords();
    hide PlainText;
    PlainJoin(error, "in");
    PlainJoin(error + [' '] + "in", "line");
    PlainJoin(error + [' '] + "in" + [' '] + "line", position);
    assert error + [' '] + "in" + [' '] + "line" + [' '] + position == error + " in line " + position;
  }

  lemma RejectionRecordsOk(r: Rejection, position: string, n: nat)
    requires PlainText(r.transaction) && PlainText(r.error) && PlainText(position)
    ensures RecordsOk(RejectionRecords(r, position, n))
  {
    hide PlainText, ReplyRecordOk;
    var records := RejectionRecords(r, position, n);
    TypeThenText(REJECTED, r.transaction);
    ErrorTextIsPlain(r.error, position);
    PlainNumber(n + 1);
    PlainNumber(3);
    EndRecordOk(records[2]);
    ErrorRecordOk(records[1]);
  }

  lemma EndRecordOk(r: Fields)
    requires |r| == 3 && r[0] == END && r[1] == REJECTED && PlainText(r[2])
    ensures ReplyRecordOk(r)
  {
    hide Contains;
    WordsApart();
    ShortWords();
    assert r[2..] == [r[2]];
  }

  lemma ErrorRecordOk(r: Fields)
    requires |r| == 3 && r[0] == ERROR && PlainText(r[1]) && PlainText(r[2])
    ensures ReplyRecordOk(r)
  {
    hide Contains;
    ShortWords();
  }

  lemma {:induction false} AcceptedRecordsOk(licences: seq<AcceptedLicence>, t: Mappings)
    requires PlainTransactions(t) && LiteAccepted(licences, t).Some?
    ensures RecordsOk(LiteAccepted(licences, t).value)
  {
    hide PlainText, ReplyRecordOk;
    if licences != [] {
      TypeThenText(ACCEPTED, AcceptedTransaction(licences[0], t).value);
      AcceptedRecordsOk(licences[1..], t);
    }
  }

  lemma {:induction false} RejectedRecordsOk(licences: seq<RejectedLicence>, t: Mappings, lines: seq<string>, n: nat)
    requires PlainTransactions(t) && PlainErrors(licences) && LiteRejected(licences, t, lines, n).Some?
    ensures RecordsOk(LiteRejected(licences, t, lines, n).value)
  {
    hide PlainText, ReplyRecordOk, ScanFrom, RejectionRecords;
    if licences != [] {
      var records := LiteRejection(licences[0], t, lines, n).value;
      if licences[0].rejectedGoods != [] {
        var r := RejectionOf(licences[0], t).value;
        PlainNumber(0);
        PositionIsPlain(lines, 0, false, "", r.transaction, r.line);
        RejectionRecordsOk(r, ScanFrom(lines, 0, false, "", r.transaction, r.line).value, n);
      }
      assert PlainErrors(licences[1..]);
      RejectedRecordsOk(licences[1..], t, lines, n + |records|);
    }
  }

  /** LITE's records are free of the words the merger counts when the transactions and the error texts are. */
  lemma LiteRecordsOk(response: Option<LiteResponse>, t: Mappings, lines: seq<string>, n: nat)
    requires PlainTransactions(t) && (response.Some? ==> PlainErrors(response.value.rejected))
    requires LiteRecords(response, t, lines, n).Some?
    ensures RecordsOk(LiteRecords(response, t, lines, n).value)
  {
    hide PlainTransactions, PlainErrors, ReplyRecordOk;
    if response.Some? {
      AcceptedRecordsOk(response.value.accepted, t);
      RejectedRecordsOk(response.value.rejected, t, lines, n + |LiteAccepted(response.value.accepted, t).value|);
    }
  }

  // ---------------------------------------------------------------- numbering

  /** The lines carry the numbers `n`, `n + 1`, ... */
  predicate NumberedFrom(lines: seq<string>, n: nat) {
    forall k :: 0 <= k < |lines| ==> Split(lines[k], FIELD_SEP)[0] == Decimal(n + k)
  }

  /** Each line carries its own position. */
  predicate Consecutive(lines: seq<string>) {
    NumberedFrom(lines, 1)
  }

  lemma NumberColumn(n: nat, body: string, pad: string)
    ensures Split(NumberedLine(n, body) + pad, FIELD_SEP)[0] == Decimal(n)
  {
    DecimalRoundTrip(n);
    Assoc(Decimal(n) + [FIELD_SEP], body, pad);
    Assoc(Decimal(n), [FIELD_SEP], body + pad);
    SplitAtSep(Decimal(n), body + pad, FIELD_SEP);
    Assoc(Decimal(n) + [FIELD_SEP], body, pad);
  }

  lemma {:induction false} LinesNumberedFrom(bodies: seq<string>, n: nat, pad: string)
    ensures NumberedFrom(NumberedLines(bodies, n, pad), n)
  {
    NumberedLinesAt(bodies, n, pad);
    forall k | 0 <= k < |bodies|
      ensures Split(NumberedLines(bodies, n, pad)[k], FIELD_SEP)[0] == Decimal(n + k)
    {
      NumberColumn(n + k, bodies[k], pad);
    }
  }

  lemma NumberedFromAppend(a: seq<string>, b: seq<string>, n: nat, m: nat)
    requires m == n + |a| && NumberedFrom(a, n) && NumberedFrom(b, m)
    ensures NumberedFrom(a + b, n)
  {
    hide Split, Decimal;
    forall k | 0 <= k < |a + b|
      ensures Split((a + b)[k], FIELD_SEP)[0] == Decimal(n + k)
    {
      if k < |a| {
        assert (a + b)[k] == a[k];
      } else {
        assert (a + b)[k] == b[k - |a|];
        assert m + (k - |a|) == n + k;
      }
    }
  }

  /** Ended lines followed by a last one are the lines joined. */
  lemma TerminatedThenLast(lines: seq<string>, last: string)
    ensures Terminated(lines) + last == Join(lines + [last], LINE_SEP)
  {
    TerminatedDropLast(lines);
    if lines == [] {
      assert [] + [last] == [last] && "" + last == last;
    } else {
      JoinAppend(lines, last, LINE_SEP);
    }
  }

  lemma NumbersFree(a: nat, b: nat, c: nat)
    ensures AllFree([FILE_TRAILER, Decimal(a), Decimal(b), Decimal(c)], LINE_SEP)
  {
    NumberFree(a);
    NumberFree(b);
    NumberFree(c);
    hide Decimal;
  }

  lemma NumberFree(n: nat)
    ensures Free(Decimal(n), LINE_SEP) && Free(Decimal(n), FIELD_SEP)
  {
    DecimalRoundTrip(n);
  }

  lemma TrailerFree(text: string)
    ensures Free(Body(TrailerFor(text)), LINE_SEP)
  {
    hide Count;
    NumbersFree(Count(text, ACCEPTED), Count(text, REJECTED) / 2, Count(text, FILE_ERROR) / 2);
    JoinFree(TrailerFor(text), FIELD_SEP, LINE_SEP);
  }

  predicate AllSeparatorFree(records: seq<Fields>) {
    forall k :: 0 <= k < |records| ==> SeparatorFree(records[k])
  }

  /** The lines of the merged reply: the first part, LITE's records, the trailer. */
  lemma MergedLines(ediData: string, spire: Option<string>, response: Option<LiteResponse>, t: Mappings, timeStamp: string,
                    lite: seq<Fields>)
    requires LiteRecords(response, t, Split(ediData, LINE_SEP), FirstNumber(spire)) == Some(lite) && AllSeparatorFree(lite)
    requires AllFree(FirstLines(spire, timeStamp), LINE_SEP)
    ensures var n := FirstNumber(spire);
            var first := FirstLines(spire, timeStamp);
            var trailer := TrailerFor(Terminated(first) + RecordsText(lite, n));
            var merged := Merged(ediData, spire, response, t, timeStamp);
            && merged.Some?
            && Split(merged.value, LINE_SEP) ==
               first + NumberedLines(Bodies(lite), n, "") + [NumberedLine(n + |lite|, Body(trailer))]
  {
    hide *;
    var n := FirstNumber(spire);
    var first := FirstLines(spire, timeStamp);
    var text := Terminated(first) + RecordsText(lite, n);
    var inner := NumberedLines(Bodies(lite), n, "");
    MergedIs(ediData, spire, response, t, timeStamp, lite);
    TerminatedAppend(first, inner);
    RecordsTextIs(lite, n);
    var last := NumberedLine(n + |lite|, Body(TrailerFor(text)));
    TerminatedThenLast(first + inner, last);
    LinesFree(first, lite, n, TrailerFor(text));
    SplitJoin(first + inner + [last], LINE_SEP);
  }

  lemma RecordsTextIs(records: seq<Fields>, n: nat)
    ensures RecordsText(records, n) == Terminated(NumberedLines(Bodies(records), n, ""))
  {
  }

  lemma LinesFree(first: seq<string>, lite: seq<Fields>, n: nat, trailer: Fields)
    requires AllFree(first, LINE_SEP) && AllSeparatorFree(lite) && exists text :: trailer == TrailerFor(text)
    ensures AllFree(first + NumberedLines(Bodies(lite), n, "") + [NumberedLine(n + |lite|, Body(trailer))], LINE_SEP)
  {
    var text :| trailer == TrailerFor(text);
    TrailerFree(text);
    DecimalRoundTrip(n + |lite|);
    BodiesFree(lite);
    NumberedLinesFree(Bodies(lite), n, "");
  }

  lemma FirstLinesFree(spire: Option<string>, timeStamp: string)
    requires Free(timeStamp, LINE_SEP)
    ensures AllFree(FirstLines(spire, timeStamp), LINE_SEP)
  {
    if SpireReplied(spire) {
      JoinSplit(spire.value, LINE_SEP);
      BeforeTrailerFree(Split(spire.value, LINE_SEP));
    } else {
      JoinFree(OwnHeader(timeStamp), FIELD_SEP, LINE_SEP);
      DecimalRoundTrip(1);
    }
  }

  lemma {:induction false} BeforeTrailerFree(lines: seq<string>)
    requires AllFree(lines, LINE_SEP)
    ensures AllFree(BeforeTrailer(lines), LINE_SEP)
  {
    if lines != [] && !Contains(lines[0], FILE_TRAILER) {
      BeforeTrailerFree(lines[1..]);
    }
  }

  /**
   The merged reply is numbered consecutively exactly when SPIRE replied. Without SPIRE's reply
   the header written in its place and the record after it both carry number 1.
   */
  lemma NumberedExactlyWhenSpireReplied(records: seq<Fields>, spireTrailer: Fields, pad: string, rest: seq<string>,
                                        spire: Option<string>, ediData: string, response: Option<LiteResponse>,
                                        t: Mappings, timeStamp: string)
    requires RecordsOk(records) && ReplyTrailerOk(spireTrailer) && PadOk(pad) && AllFree(rest, LINE_SEP)
    requires Free(timeStamp, LINE_SEP)
    requires SpireReplied(spire) ==> spire.value == SpireReply(records, spireTrailer, pad, rest)
    requires var lite := LiteRecords(response, t, Split(ediData, LINE_SEP), FirstNumber(spire));
             lite.Some? && RecordsOk(lite.value)
    ensures var merged := Merged(ediData, spire, response, t, timeStamp);
            merged.Some? && (Consecutive(Split(merged.value, LINE_SEP)) <==> SpireReplied(spire))
  {
    hide *;
    var n := FirstNumber(spire);
    var lite := LiteRecords(response, t, Split(ediData, LINE_SEP), n).value;
    FirstLinesFree(spire, timeStamp);
    OkIsSeparatorFree(lite);
    MergedLines(ediData, spire, response, t, timeStamp, lite);
    var first := FirstLines(spire, timeStamp);
    var trailer := TrailerFor(Terminated(first) + RecordsText(lite, n));
    if SpireReplied(spire) {
      SpireIs(spire, records, spireTrailer, pad, rest);
      SpireFirstLines(records, spireTrailer, pad, rest, timeStamp);
      SpireNumbered(records, pad, lite, trailer, n, n + |lite|);
    } else {
      OwnFirstLines(spire, timeStamp);
      OwnHeaderNumbered(timeStamp, lite, trailer, n, n + |lite|);
    }
  }

  lemma OkIsSeparatorFree(records: seq<Fields>)
    requires RecordsOk(records)
    ensures AllSeparatorFree(records)
  {
    hide SeparatorFree, OnlyAsType, IsRejectionEnd, Lacks;
  }

  lemma SpireIs(spire: Option<string>, records: seq<Fields>, trailer: Fields, pad: string, rest: seq<string>)
    requires SpireReplied(spire) && (SpireReplied(spire) ==> spire.value == SpireReply(records, trailer, pad, rest))
    ensures spire == Some(SpireReply(records, trailer, pad, rest))
  {
  }

  lemma OwnFirstLines(spire: Option<string>, timeStamp: string)
    requires !SpireReplied(spire)
    ensures FirstLines(spire, timeStamp) == [NumberedLine(1, Body(OwnHeader(timeStamp)))] && FirstNumber(spire) == 1
  {
  }

  lemma SpireNumbered(records: seq<Fields>, pad: string, lite: seq<Fields>, trailer: Fields, n: nat, m: nat)
    requires n == |records| + 1 && m == n + |lite|
    ensures Consecutive(NumberedLines(Bodies(records), 1, pad) + NumberedLines(Bodies(lite), n, "")
                        + [NumberedLine(m, Body(trailer))])
  {
    hide *;
    LinesLength(records, 1, pad);
    LinesLength(lite, n, "");
    LinesNumberedFrom(Bodies(records), 1, pad);
    LinesNumberedFrom(Bodies(lite), n, "");
    LastNumbered(m, Body(trailer));
    ThreeParts(NumberedLines(Bodies(records), 1, pad), NumberedLines(Bodies(lite), n, ""), [NumberedLine(m, Body(trailer))], n, m);
  }

  lemma ThreeParts(a: seq<string>, b: seq<string>, c: seq<string>, n: nat, m: nat)
    requires n == 1 + |a| && m == n + |b|
    requires NumberedFrom(a, 1) && NumberedFrom(b, n) && NumberedFrom(c, m)
    ensures Consecutive(a + b + c)
  {
    NumberedFromAppend(a, b, 1, n);
    NumberedFromAppend(a + b, c, 1, m);
  }

  lemma LinesLength(records: seq<Fields>, n: nat, pad: string)
    ensures |NumberedLines(Bodies(records), n, pad)| == |records|
  {
    BodiesLength(records);
    NumberedLinesAt(Bodies(records), n, pad);
  }

  lemma LastNumbered(n: nat, body: string)
    ensures NumberedFrom([NumberedLine(n, body)], n)
  {
    NumberColumn(n, body, "");
    assert NumberedLine(n, body) + "" == NumberedLine(n, body);
  }

  lemma OwnHeaderNumbered(timeStamp: string, lite: seq<Fields>, trailer: Fields, n: nat, m: nat)
    requires n == 1 && m == n + |lite|
    ensures !Consecutive([NumberedLine(1, Body(OwnHeader(timeStamp)))] + NumberedLines(Bodies(lite), n, "")
                         + [NumberedLine(m, Body(trailer))])
  {
    var body := if lite == [] then Body(trailer) else Body(lite[0]);
    SecondLine([NumberedLine(1, Body(OwnHeader(timeStamp)))], lite, trailer, n, m);
    NumberColumn(n, body, "");
    assert NumberedLine(n, body) + "" == NumberedLine(n, body);
    OneIsNotTwo();
  }

  lemma OneIsNotTwo()
    ensures Decimal(1) != Decimal(1 + 1)
  {
    if Decimal(1) == Decimal(2) {
      DecimalInjective(1, 2);
    }
  }

  lemma SecondLine(first: seq<string>, lite: seq<Fields>, trailer: Fields, n: nat, m: nat)
    requires |first| == 1 && m == n + |lite|
    ensures (first + NumberedLines(Bodies(lite), n, "") + [NumberedLine(m, Body(trailer))])[1] ==
            NumberedLine(n, if lite == [] then Body(trailer) else Body(lite[0]))
  {
    var b := NumberedLines(Bodies(lite), n, "");
    if lite == [] {
      assert b == [] && m == n;
    } else {
      assert b[0] == NumberedLine(n, Body(lite[0])) + "" == NumberedLine(n, Body(lite[0]));
    }
  }

  // ---------------------------------------------------------------- error positions

  /** No line mentions both a licence and the transaction. */
  predicate Skipped(lines: seq<string>, transaction: string) {
    forall k :: 0 <= k < |lines| ==> Contains(lines[k], LICENCE_USAGE) ==> !Contains(lines[k], transaction)
  }

  lemma {:induction false} ScanSkips(a: seq<string>, b: seq<string>, j: nat, found: string, transaction: string, number: nat)
    requires Skipped(a, transaction)
    ensures ScanFrom(a + b, j, false, found, transaction, number) == ScanFrom(b, j + |a|, false, found, transaction, number)
  {
    if a == [] {
      assert a + b == b;
    } else {
      assert (a + b)[1..] == a[1..] + b;
      ScanSkips(a[1..], b, j + 1, found, transaction, number);
    }
  }

  /** A record that is neither a licence's header nor its end, inside the transaction's block. */
  lemma ScanInside(n: nat, r: Fields, pad: string, b: seq<string>, j: nat, found: string, transaction: string, number: nat)
    requires DetailOk(r) && PadOk(pad)
    requires !Lacks(r, LINE) ==> |r| >= 3
    ensures ScanFrom([NumberedLine(n, Body(r)) + pad] + b, j, true, found, transaction, number) ==
            ScanFrom(b, j + 1, true, if !Lacks(r, LINE) && r[1] == Decimal(number) then Decimal(j + 1) else found, transaction, number)
  {
    var line := NumberedLine(n, Body(r)) + pad;
    WordsArePlain();
    WordInLine(n, r, LICENCE_USAGE);
    WordInLine(n, r, LINE);
    ContainsPadded(NumberedLine(n, Body(r)), pad, LICENCE_USAGE);
    ContainsPadded(NumberedLine(n, Body(r)), pad, LINE);
    if !Lacks(r, LINE) {
      PaddedThird(n, r, pad);
    }
    assert ([line] + b)[1..] == b;
  }

  lemma PaddedThird(n: nat, r: Fields, pad: string)
    requires Clean(r) && PadOk(pad) && |r| >= 3
    ensures var tokens := Split(NumberedLine(n, Body(r)) + pad, FIELD_SEP);
            |tokens| >= 3 && tokens[2] == r[1]
  {
    DecimalRoundTrip(n);
    var more := Join(r[2..], FIELD_SEP) + pad;
    assert r[1..][1..] == r[2..];
    Assoc(r[1] + [FIELD_SEP], Join(r[2..], FIELD_SEP), pad);
    Assoc(r[0] + [FIELD_SEP], Body(r[1..]), pad);
    Assoc(Decimal(n) + [FIELD_SEP], Body(r), pad);
    SplitAtSep(r[1], more, FIELD_SEP);
    SplitAtSep(r[0], Body(r[1..]) + pad, FIELD_SEP);
    SplitAtSep(Decimal(n), Body(r) + pad, FIELD_SEP);
  }

  predicate Matches(r: Fields, number: nat) {
    |r| >= 2 && r[0] == LINE && r[1] == Decimal(number)
  }

  /** Inside the transaction's block, only the goods line looked for has that number in its column. */
  predicate Scannable(r: Fields, number: nat) {
    && DetailOk(r)
    && (!Lacks(r, LINE) ==> |r| >= 3)
    && (!Lacks(r, LINE) && r[1] == Decimal(number) ==> r[0] == LINE)
  }

  lemma {:induction false} ScanDetails(details: seq<Fields>, k: nat, n: nat, pad: string, b: seq<string>, j: nat, found: string,
                                       transaction: string, number: nat)
    requires forall i :: 0 <= i < |details| ==> Scannable(details[i], number)
    requires forall i :: 0 <= i < |details| && Matches(details[i], number) ==> i == k
    requires PadOk(pad)
    ensures ScanFrom(NumberedLines(Bodies(details), n, pad) + b, j, true, found, transaction, number) ==
            ScanFrom(b, j + |details|, true,
                     if k < |details| && Matches(details[k], number) then Decimal(j + k + 1) else found,
                     transaction, number)
    decreases |details|
  {
    hide *;
    if details == [] {
      NoDetails(n, pad, b);
    } else {
      var next := if k == 0 then |details| else k - 1;
      ScanFirstDetail(details, n, pad, b, j, found, transaction, number);
      var now := if Matches(details[0], number) then Decimal(j + 1) else found;
      forall i | 0 <= i < |details[1..]|
        ensures Scannable(details[1..][i], number)
        ensures Matches(details[1..][i], number) ==> i == next
      {
        assert details[1..][i] == details[i + 1];
      }
      ScanDetails(details[1..], next, n + 1, pad, b, j + 1, now, transaction, number);
    }
  }

  lemma NoDetails(n: nat, pad: string, b: seq<string>)
    ensures NumberedLines(Bodies([]), n, pad) + b == b
  {
  }

  lemma ScanFirstDetail(details: seq<Fields>, n: nat, pad: string, b: seq<string>, j: nat, found: string,
                        transaction: string, number: nat)
    requires details != [] && Scannable(details[0], number) && PadOk(pad)
    ensures ScanFrom(NumberedLines(Bodies(details), n, pad) + b, j, true, found, transaction, number) ==
            ScanFrom(NumberedLines(Bodies(details[1..]), n + 1, pad) + b, j + 1, true,
                     if Matches(details[0], number) then Decimal(j + 1) else found, transaction, number)
  {
    hide ScanFrom;
    var first := NumberedLine(n, Body(details[0])) + pad;
    var rest := NumberedLines(Bodies(details[1..]), n + 1, pad);
    HasOwnType(details[0]);
    ScanInside(n, details[0], pad, rest + b, j, found, transaction, number);
    Assoc([first], rest, b);
  }

  /** The lines of the file around one block. */
  lemma {:induction false} BlocksAround(blocks: seq<UsageBlock>, i: nat, n: nat, pad: string)
    requires i < |blocks|
    ensures var before := Flatten(AllBlockBodies(blocks[..i]));
            var after := Flatten(AllBlockBodies(blocks[i + 1..]));
            var m := n + |before|;
            NumberedLines(Flatten(AllBlockBodies(blocks)), n, pad) ==
            NumberedLines(before, n, pad)
            + (NumberedLines(BlockBodies(blocks[i]), m, pad) + NumberedLines(after, m + |BlockBodies(blocks[i])|, pad))
  {
    AllBlockBodiesSplit(blocks, i);
    var before := AllBlockBodies(blocks[..i]);
    var own := BlockBodies(blocks[i]);
    var after := AllBlockBodies(blocks[i + 1..]);
    FlattenAppend(before, [own] + after);
    FlattenAppend([own], after);
    FlattenOne(own);
    NumberedLinesAppend(Flatten(before), own + Flatten(after), n, pad);
    NumberedLinesAppend(own, Flatten(after), n + |Flatten(before)|, pad);
  }

  lemma {:induction false} AllBlockBodiesSplit(blocks: seq<UsageBlock>, i: nat)
    requires i < |blocks|
    ensures AllBlockBodies(blocks) == AllBlockBodies(blocks[..i]) + ([BlockBodies(blocks[i])] + AllBlockBodies(blocks[i + 1..]))
  {
    if i == 0 {
      assert blocks[..0] == [] && blocks[1..] == blocks[0 + 1..];
    } else {
      AllBlockBodiesSplit(blocks[1..], i - 1);
      assert blocks[1..][..i - 1] == blocks[..i][1..];
      assert blocks[1..][i..] == blocks[i + 1..];
      assert blocks[..i][0] == blocks[0];
    }
  }

  /** No licence header or end among these lines names the transaction. */
  predicate Unnamed(blocks: seq<UsageBlock>, transaction: string) {
    forall k :: 0 <= k < |blocks| ==> Lacks(blocks[k].head, transaction) && Lacks(blocks[k].tail, transaction)
  }

  lemma SkippedLine(n: nat, r: Fields, pad: string, transaction: string)
    requires Clean(r) && PadOk(pad) && Word(transaction) && (Lacks(r, LICENCE_USAGE) || Lacks(r, transaction))
    ensures var line := NumberedLine(n, Body(r)) + pad;
            Contains(line, LICENCE_USAGE) ==> !Contains(line, transaction)
  {
    CountedWords();
    WordInLine(n, r, LICENCE_USAGE);
    WordInLine(n, r, transaction);
    ContainsPadded(NumberedLine(n, Body(r)), pad, LICENCE_USAGE);
    ContainsPadded(NumberedLine(n, Body(r)), pad, transaction);
  }

  lemma {:induction false} RecordsSkipped(records: seq<Fields>, n: nat, pad: string, transaction: string)
    requires PadOk(pad) && Word(transaction)
    requires forall k :: 0 <= k < |records| ==> Clean(records[k]) && (Lacks(records[k], LICENCE_USAGE) || Lacks(records[k], transaction))
    ensures Skipped(NumberedLines(Bodies(records), n, pad), transaction)
  {
    if records != [] {
      SkippedLine(n, records[0], pad, transaction);
      RecordsSkipped(records[1..], n + 1, pad, transaction);
      hide Contains;
    }
  }

  lemma BlockSkipped(b: UsageBlock, n: nat, pad: string, transaction: string)
    requires BlockOk(b) && Lacks(b.head, transaction) && Lacks(b.tail, transaction) && PadOk(pad) && Word(transaction)
    ensures Skipped(NumberedLines(BlockBodies(b), n, pad), transaction)
  {
    RecordsSkipped(BlockRecords(b), n, pad, transaction);
  }

  lemma {:induction false} BlocksSkipped(blocks: seq<UsageBlock>, n: nat, pad: string, transaction: string)
    requires BlocksOk(blocks) && Unnamed(blocks, transaction) && PadOk(pad) && Word(transaction)
    ensures Skipped(NumberedLines(Flatten(AllBlockBodies(blocks)), n, pad), transaction)
  {
    if blocks != [] {
      var first := BlockBodies(blocks[0]);
      var others := Flatten(AllBlockBodies(blocks[1..]));
      BlockSkipped(blocks[0], n, pad, transaction);
      BlocksSkipped(blocks[1..], n + |first|, pad, transaction);
      SkippedAppend(NumberedLines(first, n, pad), NumberedLines(others, n + |first|, pad), transaction);
      FlattenFirst(blocks);
      NumberedLinesAppend(first, others, n, pad);
    }
  }

  lemma FlattenFirst(blocks: seq<UsageBlock>)
    requires blocks != []
    ensures Flatten(AllBlockBodies(blocks)) == BlockBodies(blocks[0]) + Flatten(AllBlockBodies(blocks[1..]))
  {
    assert AllBlockBodies(blocks)[1..] == AllBlockBodies(blocks[1..]);
  }

  /** The position of the `k`-th detail of the `i`-th block: header, earlier blocks, block header, details. */
  function PositionOf(f: UsageFile, i: nat, k: nat): nat
    requires i < |f.blocks|
  {
    1 + |Flatten(AllBlockBodies(f.blocks[..i]))| + 1 + k + 1
  }

  /**
   The `k`-th detail of block `i` is the only goods line of its number in that block, and no
   other licence header or end line mentions the block's transaction.
   */
  predicate Findable(f: UsageFile, i: nat, k: nat, number: nat)
    requires WellFormed(f)
  {
    && i < |f.blocks| && k < |f.blocks[i].details|
    && var b := f.blocks[i];
       var transaction := Transaction(b);
       && Word(transaction)
       && Matches(b.details[k], number)
       && (forall m :: 0 <= m < |b.details| ==> Scannable(b.details[m], number))
       && (forall m :: 0 <= m < |b.details| && Matches(b.details[m], number) ==> m == k)
       && Lacks(b.tail, transaction)
       && Unnamed(f.blocks[..i], transaction) && Unnamed(f.blocks[i + 1..], transaction)
  }

  lemma ScanHead(n: nat, b: UsageBlock, pad: string, rest: seq<string>, j: nat, inside: bool, found: string, number: nat)
    requires BlockOk(b) && PadOk(pad) && Word(Transaction(b))
    ensures ScanFrom([NumberedLine(n, Body(b.head)) + pad] + rest, j, inside, found, Transaction(b), number) ==
            ScanFrom(rest, j + 1, true, found, Transaction(b), number)
  {
    var r := b.head;
    var line := NumberedLine(n, Body(r)) + pad;
    CountedWords();
    HasOwnType(r);
    WordInLine(n, r, LICENCE_USAGE);
    WordInLine(n, r, LINE);
    WordInLine(n, r, r[1]);
    ContainsPadded(NumberedLine(n, Body(r)), pad, LICENCE_USAGE);
    ContainsPadded(NumberedLine(n, Body(r)), pad, LINE);
    ContainsPadded(NumberedLine(n, Body(r)), pad, r[1]);
    assert ([line] + rest)[1..] == rest;
  }

  lemma ScanTail(n: nat, b: UsageBlock, pad: string, rest: seq<string>, j: nat, inside: bool, found: string, transaction: string, number: nat)
    requires BlockOk(b) && PadOk(pad) && Word(transaction) && Lacks(b.tail, transaction)
    ensures ScanFrom([NumberedLine(n, Body(b.tail)) + pad] + rest, j, inside, found, transaction, number) ==
            ScanFrom(rest, j + 1, false, found, transaction, number)
  {
    var line := NumberedLine(n, Body(b.tail)) + pad;
    CountedWords();
    HasOwnType(b.tail);
    WordInLine(n, b.tail, LICENCE_USAGE);
    ContainsPadded(NumberedLine(n, Body(b.tail)), pad, LICENCE_USAGE);
    SkippedLine(n, b.tail, pad, transaction);
    assert ([line] + rest)[1..] == rest;
  }

  lemma ScanBlock(b: UsageBlock, k: nat, n: nat, pad: string, rest: seq<string>, j: nat, number: nat)
    requires BlockOk(b) && HeadOk(b.head) && PadOk(pad) && Word(Transaction(b)) && Lacks(b.tail, Transaction(b))
    requires forall m :: 0 <= m < |b.details| ==> Scannable(b.details[m], number)
    requires forall m :: 0 <= m < |b.details| && Matches(b.details[m], number) ==> m == k
    requires k < |b.details| && Matches(b.details[k], number)
    ensures ScanFrom(NumberedLines(BlockBodies(b), n, pad) + rest, j, false, "", Transaction(b), number) ==
            ScanFrom(rest, j + |BlockBodies(b)|, false, Decimal(j + 1 + k + 1), Transaction(b), number)
  {
    hide *;
    BlockLines(b, n, pad);
    BodiesLength(b.details);
    BlockLength(b);
    var first := NumberedLine(n, Body(b.head)) + pad;
    var inner := NumberedLines(Bodies(b.details), n + 1, pad);
    var m := n + 1 + |Bodies(b.details)|;
    var last := NumberedLine(m, Body(b.tail)) + pad;
    Assoc([first], inner + [last], rest);
    Assoc(inner, [last], rest);
    ScanHead(n, b, pad, inner + ([last] + rest), j, false, "", number);
    ScanDetails(b.details, k, n + 1, pad, [last] + rest, j + 1, "", Transaction(b), number);
    ScanTail(m, b, pad, rest, j + 1 + |b.details|, true, Decimal(j + 1 + k + 1), Transaction(b), number);
  }

  lemma BlockLength(b: UsageBlock)
    ensures |BlockBodies(b)| == |b.details| + 2
  {
    BodiesLength(BlockRecords(b));
  }

  /**
   The position an error text names is the number of that transaction's own goods line: scanning
   the usage file for it finds `PositionOf`, and the line there is that record. What follows the
   file's trailer may be anything that does not name the transaction's licence line again.
   */
  lemma ErrorNamesOwnLine(f: UsageFile, pad: string, rest: seq<string>, i: nat, k: nat, number: nat)
    requires WellFormed(f) && PadOk(pad) && Findable(f, i, k, number)
    requires AllFree(rest, LINE_SEP) && Skipped(rest, Transaction(f.blocks[i]))
    ensures var lines := Split(FileText(f, pad, rest), LINE_SEP);
            var position := PositionOf(f, i, k);
            && ScanFrom(lines, 0, false, "", Transaction(f.blocks[i]), number) == Some(Decimal(position))
            && position <= |lines|
            && lines[position - 1] == NumberedLine(position, Body(f.blocks[i].details[k])) + pad
  {
    hide *;
    FindableMeans(f, i, k, number);
    var b := f.blocks[i];
    var n := 2 + |Flatten(AllBlockBodies(f.blocks[..i]))|;
    var before, after := LinesAround(f, pad, rest, i);
    BlockLine(b, k, n, pad);
    FoundBetween(b, k, n, pad, before, after, number);
    MiddleAt(before, NumberedLines(BlockBodies(b), n, pad), after, k + 1, n + k);
  }

  lemma FindableMeans(f: UsageFile, i: nat, k: nat, number: nat)
    requires WellFormed(f) && Findable(f, i, k, number)
    ensures i < |f.blocks| && PositionOf(f, i, k) == 2 + |Flatten(AllBlockBodies(f.blocks[..i]))| + k + 1
    ensures var b := f.blocks[i];
            && BlockOk(b) && HeadOk(b.head) && Word(Transaction(b)) && Lacks(b.tail, Transaction(b))
            && (forall m :: 0 <= m < |b.details| ==> Scannable(b.details[m], number))
            && (forall m :: 0 <= m < |b.details| && Matches(b.details[m], number) ==> m == k)
            && k < |b.details| && Matches(b.details[k], number)
            && Unnamed(f.blocks[..i], Transaction(b)) && Unnamed(f.blocks[i + 1..], Transaction(b))
  {
  }

  lemma MiddleAt(a: seq<string>, b: seq<string>, c: seq<string>, i: nat, at: nat)
    requires i < |b| && at == |a| + i
    ensures at < |a + (b + c)| && (a + (b + c))[at] == b[i]
  {
  }

  lemma FoundBetween(b: UsageBlock, k: nat, n: nat, pad: string, before: seq<string>, after: seq<string>, number: nat)
    requires BlockOk(b) && HeadOk(b.head) && PadOk(pad) && Word(Transaction(b)) && Lacks(b.tail, Transaction(b))
    requires forall m :: 0 <= m < |b.details| ==> Scannable(b.details[m], number)
    requires forall m :: 0 <= m < |b.details| && Matches(b.details[m], number) ==> m == k
    requires k < |b.details| && Matches(b.details[k], number)
    requires Skipped(before, Transaction(b)) && Skipped(after, Transaction(b)) && |before| == n - 1
    ensures ScanFrom(before + (NumberedLines(BlockBodies(b), n, pad) + after), 0, false, "", Transaction(b), number) ==
            Some(Decimal(n + k + 1))
  {
    hide *;
    var own := NumberedLines(BlockBodies(b), n, pad);
    ScanSkips(before, own + after, 0, "", Transaction(b), number);
    ScanBlock(b, k, n, pad, after, n - 1, number);
    var found := Decimal(n + k + 1);
    assert after + [] == after;
    ScanSkips(after, [], n - 1 + |BlockBodies(b)|, found, Transaction(b), number);
    ScanNothing(n - 1 + |BlockBodies(b)| + |after|, found, Transaction(b), number);
  }

  /** The file's lines before and after one block: none of them names the block's transaction. */
  lemma LinesAround(f: UsageFile, pad: string, rest: seq<string>, i: nat) returns (before: seq<string>, after: seq<string>)
    requires WellFormed(f) && PadOk(pad) && i < |f.blocks| && Word(Transaction(f.blocks[i]))
    requires AllFree(rest, LINE_SEP) && Skipped(rest, Transaction(f.blocks[i]))
    requires Unnamed(f.blocks[..i], Transaction(f.blocks[i])) && Unnamed(f.blocks[i + 1..], Transaction(f.blocks[i]))
    ensures var n := 2 + |Flatten(AllBlockBodies(f.blocks[..i]))|;
            && |before| == n - 1
            && Split(FileText(f, pad, rest), LINE_SEP) == before + (NumberedLines(BlockBodies(f.blocks[i]), n, pad) + after)
    ensures Skipped(before, Transaction(f.blocks[i])) && Skipped(after, Transaction(f.blocks[i]))
  {
    var transaction := Transaction(f.blocks[i]);
    var m := NumberedFile(f, pad, rest);
    assert BlocksOk(f.blocks) && BlocksOk(f.blocks[..i]) && BlocksOk(f.blocks[i + 1..]);
    before, after := LinesAroundIn(f.blocks, i, pad, NumberedLine(1, Body(f.header)) + pad,
                                   [NumberedLine(m, Body(f.trailer)) + pad] + rest);
    SkippedLine(1, f.header, pad, transaction);
    SkippedLine(m, f.trailer, pad, transaction);
    SkippedAppend([NumberedLine(m, Body(f.trailer)) + pad], rest, transaction);
    SkippedParts(f.blocks, i, pad, transaction, NumberedLine(1, Body(f.header)) + pad,
                 [NumberedLine(m, Body(f.trailer)) + pad] + rest, before, after);
  }

  function Earlier(blocks: seq<UsageBlock>, i: nat, pad: string): seq<string>
    requires i < |blocks|
  {
    NumberedLines(Flatten(AllBlockBodies(blocks[..i])), 2, pad)
  }

  function Later(blocks: seq<UsageBlock>, i: nat, pad: string): seq<string>
    requires i < |blocks|
  {
    NumberedLines(Flatten(AllBlockBodies(blocks[i + 1..])),
                  2 + |Flatten(AllBlockBodies(blocks[..i]))| + |BlockBodies(blocks[i])|, pad)
  }

  lemma LinesAroundIn(blocks: seq<UsageBlock>, i: nat, pad: string, first: string, last: seq<string>)
    returns (before: seq<string>, after: seq<string>)
    requires i < |blocks|
    ensures before == [first] + Earlier(blocks, i, pad) && after == Later(blocks, i, pad) + last
    ensures |before| == 1 + |Flatten(AllBlockBodies(blocks[..i]))|
    ensures [first] + (NumberedLines(Flatten(AllBlockBodies(blocks)), 2, pad) + last) ==
            before + (NumberedLines(BlockBodies(blocks[i]), 2 + |Flatten(AllBlockBodies(blocks[..i]))|, pad) + after)
  {
    hide AllBlockBodies, Flatten, NumberedLines, BlockBodies;
    BlocksAround(blocks, i, 2, pad);
    NumberedLinesAt(Flatten(AllBlockBodies(blocks[..i])), 2, pad);
    before := [first] + Earlier(blocks, i, pad);
    after := Later(blocks, i, pad) + last;
    Regrouped([first], Earlier(blocks, i, pad),
              NumberedLines(BlockBodies(blocks[i]), 2 + |Flatten(AllBlockBodies(blocks[..i]))|, pad),
              Later(blocks, i, pad), last);
  }

  lemma SkippedParts(blocks: seq<UsageBlock>, i: nat, pad: string, transaction: string, first: string, last: seq<string>,
                     before: seq<string>, after: seq<string>)
    requires i < |blocks| && BlocksOk(blocks[..i]) && BlocksOk(blocks[i + 1..]) && PadOk(pad) && Word(transaction)
    requires Unnamed(blocks[..i], transaction) && Unnamed(blocks[i + 1..], transaction)
    requires Skipped([first], transaction) && Skipped(last, transaction)
    requires before == [first] + Earlier(blocks, i, pad) && after == Later(blocks, i, pad) + last
    ensures Skipped(before, transaction) && Skipped(after, transaction)
  {
    BlocksSkipped(blocks[..i], 2, pad, transaction);
    BlocksSkipped(blocks[i + 1..], 2 + |Flatten(AllBlockBodies(blocks[..i]))| + |BlockBodies(blocks[i])|, pad, transaction);
    SkippedAppend([first], Earlier(blocks, i, pad), transaction);
    SkippedAppend(Later(blocks, i, pad), last, transaction);
  }

  lemma Regrouped(a: seq<string>, b: seq<string>, c: seq<string>, d: seq<string>, e: seq<string>)
    ensures a + ((b + (c + d)) + e) == (a + b) + (c + (d + e))
  {
    Assoc(b, c + d, e);
    Assoc(c, d, e);
    Assoc(a, b, c + (d + e));
  }

  lemma SkippedAppend(a: seq<string>, b: seq<string>, transaction: string)
    requires Skipped(a, transaction) && Skipped(b, transaction)
    ensures Skipped(a + b, transaction)
  {
    hide Contains;
  }

  lemma ScanNothing(j: nat, found: string, transaction: string, number: nat)
    ensures ScanFrom([], j, false, found, transaction, number) == Some(found)
  {
  }

  lemma BlockLine(b: UsageBlock, k: nat, n: nat, pad: string)
    requires k < |b.details|
    ensures var lines := NumberedLines(BlockBodies(b), n, pad);
            k + 1 < |lines| && lines[k + 1] == NumberedLine(n + k + 1, Body(b.details[k])) + pad
  {
    BlockLines(b, n, pad);
    BodiesAt(b.details, k);
    NumberedLinesAt(Bodies(b.details), n + 1, pad);
  }

  lemma {:induction false} BodiesAt(records: seq<Fields>, k: nat)
    requires k < |records|
    ensures |Bodies(records)| == |records| && Bodies(records)[k] == Body(records[k])
  {
    BodiesLength(records);
    if k > 0 {
      BodiesAt(records[1..], k - 1);
    }
  }
}
