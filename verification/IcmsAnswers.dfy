/**
 From an ICMS licence file to the callback: HMRC answers the transactions it read, and ICMS is told
 the ids of the payloads.
 */
module IcmsAnswers {
  import opened Text
  import opened LicenceFiles
  import opened LicenceFileFacts
  import opened LicenceFileValidity
  import opened LicenceReading
  import opened LicenceReadingFacts
  import LicenceReply
  import V = EdifactValidator

  /** The transactions a reader finds in a file, in order. */
  function Named(transactions: seq<Transaction>): seq<string> {
    if transactions == [] then [] else [transactions[0].reference] + Named(transactions[1..])
  }

  /** The LicencePayload rows that a file's payloads come from: a row's reference is its payload's. */
  predicate RowsOf(payloads: seq<IcmsPayload>, rows: seq<LicenceReply.Payload>) {
    |rows| == |payloads| && forall k :: 0 <= k < |rows| ==> rows[k].reference == payloads[k].data.caseReference
  }

  lemma {:induction false} NamedAre(payloads: seq<IcmsPayload>, rows: seq<LicenceReply.Payload>, k: nat)
    requires RowsOf(payloads, rows) && k <= |payloads|
    ensures Named(Says(FromIcms(payloads), k)) == LicenceReply.References(rows[k..])
    decreases |payloads| - k
  {
    hide IcmsTerms, TypeCode, Undashed;
    if k < |payloads| {
      var rest := Says(FromIcms(payloads), k + 1);
      NamedAre(payloads, rows, k + 1);
      assert Says(FromIcms(payloads), k) == [IcmsSays(payloads[k])] + rest;
      assert Says(FromIcms(payloads), k)[1..] == rest;
      assert rows[k..][0] == rows[k] && rows[k..][1..] == rows[k + 1..];
    }
  }

  /** The transactions in the text of a written ICMS file are its payloads' references, in order. */
  lemma FileNamesItsPayloads(payloads: seq<IcmsPayload>, rows: seq<LicenceReply.Payload>, runNumber: nat, timeStamp: string,
                             postcodeOk: string -> bool)
    requires RowsOf(payloads, rows) && AllSafe(FromIcms(payloads)) && Safe(timeStamp)
    ensures var file := Edifact(FromIcms(payloads), runNumber, timeStamp, V.Icms, postcodeOk);
            file.Written? ==> Named(ReadFile(file.text).done) == LicenceReply.References(rows)
  {
    hide Edifact, ReadFile, AllSafe, Named, Says, LicenceReply.References;
    WrittenFileSays(FromIcms(payloads), runNumber, timeStamp, V.Icms, postcodeOk);
    NamedAre(payloads, rows, 0);
    assert rows[0..] == rows;
  }

  lemma {:induction false} IdForExactly(rows: seq<LicenceReply.Payload>, reference: string)
    ensures LicenceReply.IdFor(rows, reference).Some? <==> reference in LicenceReply.References(rows)
  {
    LicenceReply.ReferencesAt(rows);
    if rows != [] {
      var n := |rows| - 1;
      LicenceReply.ReferencesAt(rows[..n]);
      IdForExactly(rows[..n], reference);
      assert LicenceReply.References(rows) == LicenceReply.References(rows[..n]) + [rows[n].reference];
    }
  }

  /** Every reference is one of the file's transactions. */
  predicate AllNamed(references: seq<string>, names: seq<string>) {
    forall k :: 0 <= k < |references| ==> references[k] in names
  }

  lemma KnownExactly(references: seq<string>, rows: seq<LicenceReply.Payload>)
    ensures LicenceReply.Known(references, rows) <==> AllNamed(references, LicenceReply.References(rows))
  {
    hide LicenceReply.IdFor, LicenceReply.References;
    forall k | 0 <= k < |references|
      ensures LicenceReply.IdFor(rows, references[k]).Some? <==> references[k] in LicenceReply.References(rows)
    {
      IdForExactly(rows, references[k]);
    }
  }

  /**
   Whatever a reply to a written ICMS file says, the callback can be built from the file's rows
   exactly when the reply has a header and answers only transactions that stand in the file's text.
   */
  lemma AnswerableExactlyWhenEchoed(payloads: seq<IcmsPayload>, rows: seq<LicenceReply.Payload>, runNumber: nat,
                                    timeStamp: string, postcodeOk: string -> bool, s: LicenceReply.Reply)
    requires RowsOf(payloads, rows) && AllSafe(FromIcms(payloads)) && Safe(timeStamp)
    ensures var file := Edifact(FromIcms(payloads), runNumber, timeStamp, V.Icms, postcodeOk);
            file.Written? ==>
              var names := Named(ReadFile(file.text).done);
              LicenceReply.LicenceReplyData(s, rows).Some? <==>
              && s.header.Some? && s.header.value.FileHeader?
              && AllNamed(s.accepted, names) && AllNamed(LicenceReply.RejectedReferences(s.rejected), names)
  {
    hide *;
    FileNamesItsPayloads(payloads, rows, runNumber, timeStamp, postcodeOk);
    LicenceReply.CallbackExactlyWhenKnown(s, rows);
    KnownExactly(s.accepted, rows);
    KnownExactly(LicenceReply.RejectedReferences(s.rejected), rows);
  }

  /**
   Once round: the file is written, HMRC answers each transaction in its text once, and its reply is
   printed, read, found valid and answered with every payload's id, on the side of its answer.
   */
  lemma EveryPayloadIsAnswered(payloads: seq<IcmsPayload>, rows: seq<LicenceReply.Payload>, runNumber: nat, timeStamp: string,
                               postcodeOk: string -> bool, f: LicenceReply.ReplyFile, accepted: nat, rejected: nat)
    requires RowsOf(payloads, rows) && AllSafe(FromIcms(payloads)) && Safe(timeStamp) && LicenceReply.Distinct(rows)
    requires Edifact(FromIcms(payloads), runNumber, timeStamp, V.Icms, postcodeOk).Written?
    requires LicenceReply.Structured(f) && LicenceReply.RecordsOk(LicenceReply.FileRecords(f))
    requires LicenceReply.FileErrorsIn(f.items) == []
    requires f.trailer == LicenceReply.FileTrailer(Decimal(accepted), Decimal(rejected), Decimal(0))
    requires accepted == |LicenceReply.AcceptedIn(f.items)| && rejected == |LicenceReply.RejectedIn(f.items)|
    requires var text := Edifact(FromIcms(payloads), runNumber, timeStamp, V.Icms, postcodeOk).text;
             multiset(LicenceReply.AcceptedIn(f.items) + LicenceReply.RejectedReferences(LicenceReply.RejectedIn(f.items)))
             == multiset(Named(ReadFile(text).done))
    ensures var s := LicenceReply.Process(LicenceReply.CreateLicenceReplyFile(LicenceReply.FileRecords(f)));
            && s.Some? && LicenceReply.Valid(s.value) == Some(true)
            && var c := LicenceReply.LicenceReplyData(s.value, rows);
               && c.Some?
               && multiset(c.value.accepted + LicenceReply.IdsIn(c.value.rejected)) == multiset(LicenceReply.LiteIds(rows))
               && LicenceReply.Answering(c.value, LicenceReply.AcceptedIn(f.items), LicenceReply.RejectedIn(f.items), rows)
  {
    hide *;
    FileNamesItsPayloads(payloads, rows, runNumber, timeStamp, postcodeOk);
    LicenceReply.ReplyReachesIcms(f, rows, accepted, rejected, 0);
  }
}
