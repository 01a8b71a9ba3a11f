/**
 What a licence file does to a register of licences: taking in the transactions read from the
 file's text has the same effect as applying the payloads' actions one by one.
 */
module LicenceRegister {
  import opened Text
  import opened ChiefProtocol
  import opened LicenceFiles
  import opened LicenceFileFacts
  import opened LicenceFileValidity
  import opened LicenceReading
  import opened LicenceReadingFacts
  import V = EdifactValidator

  /** A licence as CHIEF holds it; its dates, type and terms are those of the transaction that wrote it. */
  datatype Entry = Entry(reference: string, licenceType: string, usage: string, startDate: string, endDate: string, terms: Terms)

  type Register = map<string, Entry>

  /** One transaction: insert and replace write the licence, cancel removes it. */
  function Apply(t: Transaction, register: Register): Register {
    if t.action == "insert" || t.action == "replace" then
      register[t.licence := Entry(t.reference, t.licenceType, t.usage, t.startDate, t.endDate, t.terms)]
    else if t.action == "cancel" then register - {t.licence}
    else register
  }

  function ApplyAll(transactions: seq<Transaction>, register: Register): Register {
    if transactions == [] then register else ApplyAll(transactions[1..], Apply(transactions[0], register))
  }

  /** The register after a file. */
  function AfterFile(text: string, register: Register): Register {
    ApplyAll(ReadFile(text).done, register)
  }

  // ---------------------------------------------------------------- the actions themselves

  /** The licence a LITE payload describes, under a reference. */
  function EntryOf(reference: string, d: LiteData): Entry {
    Entry(ShortReference(reference), TypeCode(d.licenceType), "E", Undashed(Printed(d.startDate)), Undashed(Printed(d.endDate)),
          LiteTerms(d))
  }

  function IcmsEntryOf(d: IcmsData): Entry {
    Entry(d.caseReference, TypeCode(d.licenceType), "I", Undashed(d.startDate), Undashed(d.endDate), IcmsTerms(d))
  }

  /** A LITE action applied directly: an update moves a licence to a new reference. */
  function ApplyAction(p: LitePayload, register: Register): Register {
    match p.action
    case Insert => register[p.reference := EntryOf(p.reference, p.data)]
    case Replace => register[p.reference := EntryOf(p.reference, p.data)]
    case Cancel => register - {p.reference}
    case Update => (register - {p.oldReference})[p.reference := EntryOf(p.reference, p.data)]
  }

  /** The actions from the `k`-th payload on, in order; ICMS only inserts and replaces. */
  function ApplyActions(licences: Licences, k: nat, register: Register): Register
    requires k <= Size(licences)
    decreases Size(licences) - k
  {
    if k == Size(licences) then register
    else
      ApplyActions(licences, k + 1,
                   match licences
                   case FromLite(payloads, _) => ApplyAction(payloads[k], register)
                   case FromIcms(payloads) => register[payloads[k].data.licenceReference := IcmsEntryOf(payloads[k].data)])
  }

  lemma {:induction false} ApplyAllAppend(a: seq<Transaction>, b: seq<Transaction>, register: Register)
    ensures ApplyAll(a + b, register) == ApplyAll(b, ApplyAll(a, register))
  {
    hide Apply;
    if a == [] {
      assert a + b == b;
    } else {
      assert (a + b)[1..] == a[1..] + b;
      ApplyAllAppend(a[1..], b, Apply(a[0], register));
    }
  }

  lemma ApplyOne(t: Transaction, register: Register)
    ensures ApplyAll([t], register) == Apply(t, register)
  {
    hide Apply;
    assert [t][1..] == [];
  }

  /** Taking in what a payload says is applying its action; an update's two transactions move the licence. */
  lemma ApplySays(p: LitePayload, history: seq<LitePayload>, register: Register)
    requires GenerateLinesForLicence(p, history).Some?
    ensures ApplyAll(LiteSays(p, history), register) == ApplyAction(p, register)
  {
    hide ShortReference, TypeCode, Undashed, LiteTerms, TransactionReference, Date, Details, LicenceRecord, ApplyAll;
    var says := LiteSays(p, history);
    if p.action == Update {
      assert says == [says[0]] + [says[1]];
      ApplyAllAppend([says[0]], [says[1]], register);
      ApplyOne(says[0], register);
      ApplyOne(says[1], register - {p.oldReference});
    } else {
      assert says == [says[0]];
      ApplyOne(says[0], register);
    }
  }

  lemma ApplySaysIcms(p: IcmsPayload, register: Register)
    ensures ApplyAll([IcmsSays(p)], register) == register[p.data.licenceReference := IcmsEntryOf(p.data)]
  {
    hide ApplyAll, TypeCode, Undashed, IcmsTerms;
    ApplyOne(IcmsSays(p), register);
  }

  lemma {:induction false} ApplyAllSaid(licences: Licences, k: nat, register: Register)
    requires k <= Size(licences) && AllGenerate(licences)
    ensures ApplyAll(Says(licences, k), register) == ApplyActions(licences, k, register)
    decreases Size(licences) - k
  {
    hide LiteSays, IcmsSays, ApplyAction, IcmsEntryOf, GenerateLinesForLicence, GenerateLinesForIcmsLicence, Apply;
    if k < Size(licences) {
      ApplyAllAppend(SaysOne(licences, k), Says(licences, k + 1), register);
      assert LinesOf(licences, k).Some?;
      match licences {
        case FromLite(payloads, history) => ApplySays(payloads[k], history, register);
        case FromIcms(payloads) => ApplySaysIcms(payloads[k], register);
      }
      ApplyAllSaid(licences, k + 1, ApplyAll(SaysOne(licences, k), register));
    }
  }

  /**
   Splitting an update preserves meaning. For every list of payloads on which generation succeeds,
   whatever its texts are, taking in the transactions read from the emitted records gives any
   register what the actions give it when applied directly, in order; an update, emitted as a cancel
   and an insert, moves the licence.
   */
  lemma RecordsMeanTheirActions(licences: Licences, runNumber: nat, timeStamp: string, system: V.System, register: Register)
    requires SystemOf(licences, system) && AllGenerate(licences)
    ensures ApplyAll(ReadRecords(NumberedRecords(licences, runNumber, timeStamp, system), UNREAD).done, register)
            == ApplyActions(licences, 0, register)
  {
    hide AllGenerate, ReadRecords, NumberedRecords, Says, ApplyAll, ApplyActions;
    RecordsSay(licences, runNumber, timeStamp, system);
    ApplyAllSaid(licences, 0, register);
  }

  /** The same of the printed text, for payloads whose texts hold no field or line separator. */
  lemma FileMeansItsActions(licences: Licences, runNumber: nat, timeStamp: string, system: V.System, register: Register)
    requires SystemOf(licences, system) && AllGenerate(licences) && AllSafe(licences) && Safe(timeStamp)
    ensures var text := FormatLines(LicenceRecords(licences, runNumber, timeStamp, system));
            text.Some? && AfterFile(text.value, register) == ApplyActions(licences, 0, register)
  {
    hide AllGenerate, AllSafe, Says, ApplyAll, ApplyActions, FormatLines, LicenceRecords, ReadFile;
    FileSays(licences, runNumber, timeStamp, system);
    ApplyAllSaid(licences, 0, register);
  }

  /** The same of every file that is written. */
  lemma WrittenFileMeansItsActions(licences: Licences, runNumber: nat, timeStamp: string, system: V.System,
                                   postcodeOk: string -> bool, register: Register)
    requires SystemOf(licences, system) && AllSafe(licences) && Safe(timeStamp)
    ensures var file := Edifact(licences, runNumber, timeStamp, system, postcodeOk);
            file.Written? ==> AfterFile(file.text, register) == ApplyActions(licences, 0, register)
  {
    hide *;
    WrittenIsGenerated(licences, runNumber, timeStamp, system, postcodeOk);
    if Edifact(licences, runNumber, timeStamp, system, postcodeOk).Written? {
      FileMeansItsActions(licences, runNumber, timeStamp, system, register);
    }
  }

  /**
   An update is the cancel block of the old licence followed by exactly the records an insert of
   the new payload would give; it is generated only while the latest payload with the old
   reference is an insert.
   */
  lemma UpdateIsCancelThenInsert(p: LitePayload, history: seq<LitePayload>)
    requires p.action == Update
    ensures GenerateLinesForLicence(p, history).Some? ==>
              && PreviousPayload(history, p.oldReference).Some?
              && GenerateLinesForLicence(p.(action := Insert), history).Some?
              && GenerateLinesForLicence(p, history).value ==
                 CancelOldBlock(p, history).value + GenerateLinesForLicence(p.(action := Insert), history).value
  {
    hide LiteBlock;
  }

  /**
   An update can be generated exactly when the latest payload with the old reference, the `k`-th,
   is an insert with both dates, the old reference has a transaction, and an insert of the new
   payload could be generated. So a licence that has been updated to its present reference cannot
   be updated again.
   */
  lemma UpdateWorksExactlyAfterInsert(history: seq<LitePayload>, k: nat, p: LitePayload)
    requires k < |history| && history[k].reference == p.oldReference
    requires forall j :: k < j < |history| ==> history[j].reference != p.oldReference
    requires p.action == Update
    ensures GenerateLinesForLicence(p, history).Some? <==>
            && history[k].action == Insert
            && history[k].data.startDate.Some? && history[k].data.endDate.Some?
            && TransactionReference(p.oldReference).Some?
            && GenerateLinesForLicence(p.(action := Insert), history).Some?
  {
    LatestDecides(history, k, p.oldReference);
    hide LiteBlock;
  }

  lemma {:induction false} LatestDecides(history: seq<LitePayload>, k: nat, reference: string)
    requires k < |history| && history[k].reference == reference
    requires forall j :: k < j < |history| ==> history[j].reference != reference
    ensures PreviousPayload(history, reference) == if history[k].action == Insert then Some(history[k].data) else None
  {
    var n := |history| - 1;
    if k < n {
      assert history[n].reference != reference;
      LatestDecides(history[..n], k, reference);
    }
  }
}
